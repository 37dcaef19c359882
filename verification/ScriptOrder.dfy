/** Whether the scripts of ScriptRuns are in order of time, and the discipline under which they are. */
module ScriptOrder {
  import opened Types
  import opened Scripts
  import opened ScriptRuns

  ghost predicate InOrder(s: seq<Instruction>) {
    forall i, j :: 0 <= i < j < |s| ==> s[i].time <= s[j].time
  }

  /** Sorted by time, and every time between the two. */
  ghost predicate Within(s: seq<Instruction>, from: int, to: int) {
    InOrder(s) && forall i :: i in s ==> from <= i.time <= to
  }

  lemma WithinAppend(a: seq<Instruction>, b: seq<Instruction>, from: int, mid: int, to: int)
    requires Within(a, from, mid) && Within(b, mid, to) && from <= mid <= to
    ensures Within(a + b, from, to)
  {
    var s := a + b;
    forall i, j | 0 <= i < j < |s|
      ensures s[i].time <= s[j].time
    {
      if i < |a| {
        assert s[i] in a;
      }
      if j >= |a| {
        assert s[j] == b[j - |a|];
        assert s[j] in b;
      }
    }
  }

  lemma WithinOne(i: Instruction, from: int, to: int)
    requires from <= i.time <= to
    ensures Within([i], from, to)
  {}

  ghost predicate AllInOrder(s: Scripts) {
    forall node :: node in s ==> InOrder(s[node])
  }

  /** What is laid is in order and not earlier than the last instruction of the script. */
  ghost predicate Follows(script: seq<Instruction>, laid: seq<Instruction>) {
    && (forall i :: 0 <= i < |laid| - 1 ==> laid[i].time <= laid[i + 1].time)
    && (script != [] && laid != [] ==> script[|script| - 1].time <= laid[0].time)
  }

  /** The operation lays something too early: a connect instruction before the end of its script; or the
      messages of a node in a phase and then the end of the phase, which are not in order of time or
      come before the end of the node's script. */
  ghost predicate StepsBack(w: World, op: Op) {
    exists node :: !Follows(Of(w.e.scripts, node), Laying(w, op, node))
  }

  ghost predicate StepsBackAt(nodes: seq<NodeId>, ops: seq<Op>, i: nat) {
    i < |ops| && StepsBack(Run(nodes, ops[..i]), ops[i])
  }

  lemma {:induction false} StepwiseInOrder(s: seq<Instruction>)
    ensures InOrder(s) <==> forall i :: 0 <= i < |s| - 1 ==> s[i].time <= s[i + 1].time
  {
    if |s| > 1 {
      var k := |s| - 1;
      StepwiseInOrder(s[..k]);
      if forall i :: 0 <= i < |s| - 1 ==> s[i].time <= s[i + 1].time {
        assert InOrder(s[..k]);
        forall i, j | 0 <= i < j < |s|
          ensures s[i].time <= s[j].time
        {
          if j == k && i < k - 1 {
            assert s[..k][i].time <= s[..k][k - 1].time;
          } else if j < k {
            assert s[..k][i].time <= s[..k][j].time;
          }
        }
      }
    }
  }

  lemma AppendInOrder(a: seq<Instruction>, b: seq<Instruction>)
    ensures InOrder(a + b) <==> InOrder(a) && Follows(a, b)
  {
    hide InOrder;
    StepwiseInOrder(a + b);
    StepwiseInOrder(a);
    var s := a + b;
    if forall i :: 0 <= i < |s| - 1 ==> s[i].time <= s[i + 1].time {
      forall i | 0 <= i < |b| - 1
        ensures b[i].time <= b[i + 1].time
      {
        assert s[|a| + i].time <= s[|a| + i + 1].time;
      }
      forall i | 0 <= i < |a| - 1
        ensures a[i].time <= a[i + 1].time
      {
        assert s[i].time <= s[i + 1].time;
      }
      if a != [] && b != [] {
        assert s[|a| - 1].time <= s[|a|].time;
      }
    } else {
      var i :| 0 <= i < |s| - 1 && s[i].time > s[i + 1].time;
      assert i >= |a| ==> s[i] == b[i - |a|] && s[i + 1] == b[i - |a| + 1];
    }
  }

  lemma AllInOrderMeans(s: Scripts)
    ensures AllInOrder(s) <==> forall node :: InOrder(Of(s, node))
  {
    forall node | node in s && AllInOrder(s)
      ensures InOrder(Of(s, node))
    {}
    assert (forall node :: InOrder(Of(s, node))) ==> forall node :: node in s ==> InOrder(Of(s, node));
  }

  lemma DoInOrder(w: World, op: Op)
    requires Coherent(w)
    ensures AllInOrder(Do(w, op).e.scripts) <==> AllInOrder(w.e.scripts) && !StepsBack(w, op)
  {
    hide Coherent, Do, Laying, InOrder, Follows, AllInOrder;
    AllInOrderMeans(w.e.scripts);
    AllInOrderMeans(Do(w, op).e.scripts);
    forall node
      ensures InOrder(Of(Do(w, op).e.scripts, node)) <==>
              InOrder(Of(w.e.scripts, node)) && Follows(Of(w.e.scripts, node), Laying(w, op, node))
    {
      DoLays(w, op, node);
      AppendInOrder(Of(w.e.scripts, node), Laying(w, op, node));
    }
  }

  /** Over any run every script is in order of time if and only if no operation laid something too early. */
  lemma {:induction false} ScriptsInOrder(nodes: seq<NodeId>, ops: seq<Op>)
    requires NoDuplicates(nodes)
    ensures AllInOrder(Run(nodes, ops).e.scripts) <==> forall i: nat :: !StepsBackAt(nodes, ops, i)
  {
    hide Do, StepsBack, AllInOrder;
    if ops == [] {
      assert AllInOrder(map[]) by { NothingInOrder(); }
    } else {
      var k := |ops| - 1;
      ScriptsInOrder(nodes, ops[..k]);
      RunCoherent(nodes, ops[..k]);
      DoInOrder(Run(nodes, ops[..k]), ops[k]);
      forall i: nat
        ensures i < k ==> (StepsBackAt(nodes, ops, i) <==> StepsBackAt(nodes, ops[..k], i))
      {
        if i < k {
          assert ops[..k][..i] == ops[..i];
        }
      }
      assert StepsBackAt(nodes, ops, k) <==> StepsBack(Run(nodes, ops[..k]), ops[k]);
      if i: nat :| StepsBackAt(nodes, ops[..k], i) {
        assert StepsBackAt(nodes, ops, i);
      }
    }
  }

  lemma NothingInOrder()
    ensures AllInOrder(map[])
  {}

  lemma LaidForOne(s: Scripts, node: NodeId, main: Scripts, end: int)
    ensures Laid(s, [node], main, end) == Append(s, node, Of(main, node) + [Instruction(end, [])])
  {
    assert [node][..0] == [];
  }

  /** Of two open phases, the one that is applied last is laid out as if it had been applied first. */
  lemma OpenTogetherStepBack(node: NodeId)
    ensures var w := Run([node], FirstOps(node) + [Open(7, 0)] + [Close(1)] + [Close(0)]);
            Of(w.e.scripts, node) == [Instruction(7, []), AsInstruction(OneMessage(node)), Instruction(12, [])]
            && AsInstruction(OneMessage(node)).time == 5
  {
    hide Run, Laid;
    var ops := FirstOps(node);
    FirstSteps(node);
    RunAppend([node], ops, Open(7, 0));
    RunAppend([node], ops + [Open(7, 0)], Close(1));
    RunAppend([node], ops + [Open(7, 0)] + [Close(1)], Close(0));
    var p, q := OnePhase(node), Phase(7, 0, map[], 0, {node}, []);
    var w1 := Do(OnePublished(node), Open(7, 0));
    assert w1.phases == [p, q] by { assert AsSet([node]) == {node}; }
    LaidForOne(map[], node, map[], 7);
    var w2 := Do(w1, Close(1));
    assert Of(w2.e.scripts, node) == [Instruction(7, [])] && w2.e.elapsed == 7;
    LaidForOne(w2.e.scripts, node, p.main, 12);
  }

  // ---- Discipline ----

  /** One phase is open at a time, no node is deactivated meanwhile, and no time is negative. */
  predicate Disciplined(w: World, op: Op) {
    match op
    case Deactivation(_) => |w.phases| == |w.record|
    case Open(warmup, cooldown) => |w.phases| == |w.record| && warmup >= 0 && cooldown >= 0
    case PublishOne(k, delay, _, _, _) => k == |w.record| < |w.phases| && delay >= 0
    case Close(k) => k == |w.record| < |w.phases|
    case _ => true
  }

  ghost predicate Orderly(nodes: seq<NodeId>, ops: seq<Op>) {
    forall i: nat :: i < |ops| ==> Disciplined(Run(nodes, ops[..i]), ops[i])
  }

  ghost predicate Numbered(ms: seq<Message>, from: nat) {
    forall i :: 0 <= i < |ms| ==> ms[i].id == from + i
  }

  /** The messages of the open phase. */
  function Pending(w: World): seq<Message> {
    if |w.record| < |w.phases| then w.phases[|w.record|].messages else []
  }

  ghost predicate PhaseFits(e: Experiment, p: Phase) {
    && p.warmup >= 0 && p.cooldown >= 0 && p.duration >= 0
    && p.activeIds <= AsSet(e.active) && (forall m :: m in p.messages ==> m.source in p.activeIds)
    && forall node :: Within(FromNode(p.messages, node), e.elapsed, MainEnd(e, p))
  }

  ghost predicate InSequence(w: World) {
    |w.record| <= |w.phases| <= |w.record| + 1 && forall i :: 0 <= i < |w.record| ==> w.record[i] == i
  }

  ghost predicate Kept(w: World) {
    && Coherent(w) && InSequence(w) && w.e.elapsed >= 0
    && (forall node :: Within(Of(w.e.scripts, node), 0, w.e.elapsed))
    && Numbered(Shown(w) + Pending(w), 0) && w.e.nextId == |Shown(w)| + |Pending(w)|
    && (|w.record| < |w.phases| ==> PhaseFits(w.e, w.phases[|w.record|]))
  }

  lemma FollowsWithin(a: seq<Instruction>, b: seq<Instruction>, from: int, mid: int, to: int)
    requires Within(a, from, mid) && Within(b, mid, to)
    ensures Follows(a, b)
  {
    if a != [] && b != [] {
      assert a[|a| - 1] in a && b[0] in b;
    }
  }

  lemma WithinLonger(s: seq<Instruction>, from: int, to: int, later: int)
    requires Within(s, from, to) && to <= later
    ensures Within(s, from, later)
  {}

  lemma NothingWithin(from: int, to: int)
    ensures Within([], from, to)
  {}

  /** What a disciplined operation lays lies between the end of the experiment before it and after it. */
  lemma LayingWithin(w: World, op: Op, node: NodeId)
    requires Kept(w) && Disciplined(w, op)
    ensures Do(w, op).e.elapsed >= w.e.elapsed
    ensures Within(Laying(w, op, node), w.e.elapsed, Do(w, op).e.elapsed)
  {
    hide Coherent, Within, Numbered, Recorded, FromNode, AddMessage, Laid, InSequence;
    NothingWithin(w.e.elapsed, w.e.elapsed);
    match op
    case Setup(_, peers, topics) =>
      WithinOne(Instruction(w.e.elapsed, [ConnectTo(peers)] + Subscriptions(topics)), w.e.elapsed, w.e.elapsed);
    case Close(k) =>
      var p := w.phases[k];
      var last := Instruction(PhaseEnd(w.e, p), []);
      WithinOne(last, MainEnd(w.e, p), PhaseEnd(w.e, p));
      WithinAppend(FromNode(p.messages, node), [last], w.e.elapsed, MainEnd(w.e, p), PhaseEnd(w.e, p));
      NothingWithin(w.e.elapsed, PhaseEnd(w.e, p));
    case Activation(x) => MoveFrame(w.e, x);
    case Deactivation(x) => MoveFrame(w.e, x);
    case PublishOne(k, delay, x, size, topic) => AddFrame(w, k, delay, x, size, topic);
    case _ =>
  }

  lemma ScriptsWithin(w: World, op: Op, node: NodeId)
    requires Kept(w) && Disciplined(w, op)
    ensures Within(Of(Do(w, op).e.scripts, node), 0, Do(w, op).e.elapsed)
    ensures Follows(Of(w.e.scripts, node), Laying(w, op, node))
  {
    hide Coherent, Within, Numbered, Recorded, Laying, Do, Disciplined, InSequence, PhaseFits, Follows;
    DoLays(w, op, node);
    LayingWithin(w, op, node);
    WithinAppend(Of(w.e.scripts, node), Laying(w, op, node), 0, w.e.elapsed, Do(w, op).e.elapsed);
    FollowsWithin(Of(w.e.scripts, node), Laying(w, op, node), 0, w.e.elapsed, Do(w, op).e.elapsed);
  }

  /** A disciplined operation leaves nothing out and lays nothing too early. */
  lemma NothingWrong(w: World, op: Op)
    requires Kept(w) && Disciplined(w, op)
    ensures !LeavesOut(w, op) && !StepsBack(w, op)
  {
    hide Coherent, Within, Numbered, Recorded, Laying, Follows;
    if exists node :: !Follows(Of(w.e.scripts, node), Laying(w, op, node)) {
      var node :| !Follows(Of(w.e.scripts, node), Laying(w, op, node));
      ScriptsWithin(w, op, node);
    }
    assert |w.record| !in w.record;
  }

  lemma ActivationFits(e: Experiment, node: NodeId, p: Phase)
    requires PhaseFits(e, p)
    ensures PhaseFits(Or(Activate(e, node), e), p)
  {
    hide FromNode, Within;
  }

  lemma NewFits(e: Experiment, warmup: int, cooldown: int)
    requires warmup >= 0 && cooldown >= 0
    ensures PhaseFits(e, NewPhase(e, warmup, cooldown))
  {}

  lemma AddFits(e: Experiment, p: Phase, delay: int, node: NodeId, size: nat, topic: nat)
    requires PhaseFits(e, p) && Tells(p) && delay >= 0 && node in p.activeIds
    ensures var (e', p') := AddMessage(e, p, delay, node, size, topic).value; PhaseFits(e', p')
  {
    hide Within, Tells, FromNode;
    AddTells(e, p, delay, node, size, topic);
    var (e', p') := AddMessage(e, p, delay, node, size, topic).value;
    var m := Message(e.nextId, node, size, topic, MainEnd(e, p'));
    forall x
      ensures Within(FromNode(p'.messages, x), e'.elapsed, MainEnd(e', p'))
    {
      FromNodeAppend(p.messages, m, x);
      WithinLonger(FromNode(p.messages, x), e.elapsed, MainEnd(e, p), MainEnd(e, p'));
      WithinOne(AsInstruction(m), MainEnd(e, p), MainEnd(e, p'));
      WithinAppend(FromNode(p.messages, x), [AsInstruction(m)], e.elapsed, MainEnd(e, p), MainEnd(e, p'));
      assert FromNode(p.messages, x) + [] == FromNode(p.messages, x);
    }
  }

  lemma NumberedAppend(ms: seq<Message>, m: Message)
    requires Numbered(ms, 0) && m.id == |ms|
    ensures Numbered(ms + [m], 0)
  {}

  /** What becomes of the phases, the record and the numbers. */
  ghost predicate PhasesKept(w: World) {
    && InSequence(w) && Numbered(Shown(w) + Pending(w), 0) && w.e.nextId == |Shown(w)| + |Pending(w)|
    && (|w.record| < |w.phases| ==> PhaseFits(w.e, w.phases[|w.record|]))
  }

  lemma AddKeepsPhases(w: World, k: nat, delay: int, node: NodeId, size: nat, topic: nat)
    requires Kept(w) && Disciplined(w, PublishOne(k, delay, node, size, topic))
    ensures PhasesKept(Do(w, PublishOne(k, delay, node, size, topic)))
  {
    hide PhaseFits, Recorded, Numbered, AddMessage, Within, Tells, NodesDistinct, Sent;
    AddFrame(w, k, delay, node, size, topic);
    if node in w.phases[k].activeIds {
      var p := w.phases[k];
      AddFits(w.e, p, delay, node, size, topic);
      AddTells(w.e, p, delay, node, size, topic);
      var p' := AddMessage(w.e, p, delay, node, size, topic).value.1;
      var m := Message(w.e.nextId, node, size, topic, MainEnd(w.e, p'));
      assert k !in w.record;
      RecordedGrows(w.phases, w.record, k, p', m, 0, 0);
      NumberedAppend(Shown(w) + Pending(w), m);
      assert Shown(w) + (Pending(w) + [m]) == Shown(w) + Pending(w) + [m];
      SameTimesFit(w.e, AddMessage(w.e, p, delay, node, size, topic).value.0, p');
    }
  }

  lemma SameTimesFit(e: Experiment, e': Experiment, p: Phase)
    ensures PhaseFits(e', p) && e'.elapsed == e.elapsed && e'.active == e.active ==> PhaseFits(e, p)
  {
    hide FromNode, Within;
  }

  lemma DoKeepsPhases(w: World, op: Op)
    requires Kept(w) && Disciplined(w, op)
    ensures PhasesKept(Do(w, op))
  {
    hide PhaseFits, Recorded, Numbered, AddMessage, Within, Tells, NodesDistinct, Activate, Deactivate, Laid;
    match op
    case Activation(node) =>
      MoveFrame(w.e, node);
      if |w.record| < |w.phases| {
        ActivationFits(w.e, node, w.phases[|w.record|]);
      }
    case Deactivation(node) => MoveFrame(w.e, node);
    case Setup(node, peers, topics) =>
      if |w.record| < |w.phases| {
        SameTimesFit(Do(w, op).e, w.e, w.phases[|w.record|]);
      }
    case Open(warmup, cooldown) =>
      NewFits(w.e, warmup, cooldown);
      RecordedLonger(w.phases, NewPhase(w.e, warmup, cooldown), w.record);
    case PublishOne(k, delay, node, size, topic) => AddKeepsPhases(w, k, delay, node, size, topic);
    case Close(k) =>
      RecordOneMore(w.phases, w.record, k);
      assert Shown(Do(w, op)) + [] == Shown(w) + Pending(w);
  }

  lemma DoKept(w: World, op: Op)
    requires Kept(w) && Disciplined(w, op)
    ensures Kept(Do(w, op))
  {
    hide Coherent, Within, Do, Disciplined, Numbered, InSequence, PhaseFits, Recorded;
    DoCoherent(w, op);
    DoKeepsPhases(w, op);
    LayingWithin(w, op, 0);
    forall node
      ensures Within(Of(Do(w, op).e.scripts, node), 0, Do(w, op).e.elapsed)
    {
      ScriptsWithin(w, op, node);
    }
  }

  lemma StartKept(nodes: seq<NodeId>)
    requires NoDuplicates(nodes)
    ensures Kept(World(NewExperiment(nodes), [], []))
  {}

  lemma {:induction false} OrderlyKept(nodes: seq<NodeId>, ops: seq<Op>)
    requires NoDuplicates(nodes) && Orderly(nodes, ops)
    ensures Kept(Run(nodes, ops))
    ensures (forall i: nat :: !LeavesOutAt(nodes, ops, i)) && (forall i: nat :: !StepsBackAt(nodes, ops, i))
  {
    hide Kept, Do, Disciplined, LeavesOut, StepsBack;
    if ops == [] {
      StartKept(nodes);
    } else {
      var k := |ops| - 1;
      forall i: nat | i < k
        ensures Disciplined(Run(nodes, ops[..k][..i]), ops[..k][i])
        ensures LeavesOutAt(nodes, ops, i) <==> LeavesOutAt(nodes, ops[..k], i)
        ensures StepsBackAt(nodes, ops, i) <==> StepsBackAt(nodes, ops[..k], i)
      {
        assert ops[..k][..i] == ops[..i];
        assert Disciplined(Run(nodes, ops[..i]), ops[i]);
      }
      OrderlyKept(nodes, ops[..k]);
      assert Disciplined(Run(nodes, ops[..k]), ops[k]);
      NothingWrong(Run(nodes, ops[..k]), ops[k]);
      DoKept(Run(nodes, ops[..k]), ops[k]);
    }
  }

  lemma {:induction false} SentOnce(ms: seq<Message>, from: nat, source: NodeId, id: nat)
    requires Numbered(ms, from)
    ensures Sent(ms, source, id) == if from <= id < from + |ms| && ms[id - from].source == source then 1 else 0
  {
    if ms != [] {
      SentOnce(ms[..|ms| - 1], from, source, id);
    }
  }

  lemma PublishedOnce(s: Scripts, ms: seq<Message>)
    requires Agree(s, ms) && Numbered(ms, 0)
    ensures forall node: NodeId, id: nat {:trigger Publications(Of(s, node), id)} ::
              Publications(Of(s, node), id) == if id < |ms| && ms[id].source == node then 1 else 0
  {
    hide Publications, Sent, Of;
    forall node: NodeId, id: nat
      ensures Publications(Of(s, node), id) == if id < |ms| && ms[id].source == node then 1 else 0
    {
      SentOnce(ms, 0, node, id);
    }
  }

  /** In an orderly run, with one phase open at a time, no node deactivated meanwhile and no time
      negative, once every phase has been applied: every script is in order of time and ends no later
      than the experiment; the messages are numbered 0, 1, 2 and so on without a gap; and every message
      is published once by the script of its source, at its own time, and by no other script. */
  lemma ScriptsAreSound(nodes: seq<NodeId>, ops: seq<Op>)
    requires NoDuplicates(nodes) && Orderly(nodes, ops) && |Run(nodes, ops).phases| == |Run(nodes, ops).record|
    ensures var e, ms := Run(nodes, ops).e, Shown(Run(nodes, ops));
            && AllInOrder(e.scripts) && (forall node, i :: i in Of(e.scripts, node) ==> 0 <= i.time <= e.elapsed)
            && |ms| == e.nextId && (forall i :: 0 <= i < |ms| ==> ms[i].id == i)
            && (forall node: NodeId, id: nat {:trigger Publications(Of(e.scripts, node), id)} ::
                  Publications(Of(e.scripts, node), id) == if id < |ms| && ms[id].source == node then 1 else 0)
            && forall m :: m in ms ==> AsInstruction(m) in Of(e.scripts, m.source)
  {
    hide Publications, Sent, Run, LeavesOutAt, StepsBackAt, Orderly, Coherent, InSequence, AllInOrder, Shown, Of,
         PhaseFits, InOrder;
    OrderlyKept(nodes, ops);
    ScriptsInOrder(nodes, ops);
    ScriptsPublishTheRecord(nodes, ops);
    var w := Run(nodes, ops);
    var ms := Shown(w);
    assert Pending(w) == [];
    assert ms + Pending(w) == ms;
    PublishedOnce(w.e.scripts, ms);
    forall node, i | i in Of(w.e.scripts, node)
      ensures 0 <= i.time <= w.e.elapsed
    {
      assert Within(Of(w.e.scripts, node), 0, w.e.elapsed);
    }
  }

  /** The final time in seconds is less than a second later than some instruction; and it is late enough
      for every instruction if no operation laid something too early. */
  lemma FinalTimeCovers(nodes: seq<NodeId>, ops: seq<Op>, seconds: int)
    requires NoDuplicates(nodes) && IsLatest(Run(nodes, ops).e.scripts, seconds)
    ensures var s := Run(nodes, ops).e.scripts;
            && (exists node: NodeId, i: Instruction :: node in s && i in s[node] && i.time > 1000 * (seconds - 1))
            && ((forall i: nat :: !StepsBackAt(nodes, ops, i)) ==>
                  forall node: NodeId, i: Instruction :: node in s && i in s[node] ==> i.time <= 1000 * seconds)
  {
    hide Run, StepsBackAt;
    ScriptsInOrder(nodes, ops);
    var s := Run(nodes, ops).e.scripts;
    if forall i: nat :: !StepsBackAt(nodes, ops, i) {
      forall node: NodeId, i: Instruction | node in s && i in s[node]
        ensures i.time <= 1000 * seconds
      {
        var k :| 0 <= k < |s[node]| && s[node][k] == i;
        assert s[node][k].time <= s[node][|s[node]| - 1].time;
      }
    }
    var node, time :| EndsAt(s, node, time) && 1000 * (seconds - 1) < time;
    assert s[node][|s[node]| - 1] in s[node];
  }
}

/** The script scheduler of experiment.py: phases of timed publications, laid one after the other
    into one script per node. Times and delays are in milliseconds. */
module Scripts {
  import opened Types

  type NodeId = nat

  datatype Command =
    | ConnectTo(peers: seq<NodeId>)
    | SubscribeTo(topic: nat)
    | PublishMessage(id: nat, topic: nat, size: nat)
  datatype Instruction = Instruction(time: int, commands: seq<Command>)
  datatype Message = Message(id: nat, source: NodeId, size: nat, topic: nat, time: int)
  datatype PhaseInfo = PhaseInfo(nodes: set<NodeId>, messages: seq<Message>)

  type Scripts = map<NodeId, seq<Instruction>>

  /** A phase that has been opened and not applied yet. */
  datatype Phase = Phase(warmup: int, cooldown: int, main: Scripts, duration: int, activeIds: set<NodeId>,
                         messages: seq<Message>)

  datatype Experiment = Experiment(elapsed: int, nextId: nat, active: seq<NodeId>, ready: seq<NodeId>, scripts: Scripts,
                                   phases: seq<PhaseInfo>)

  function NewExperiment(nodes: seq<NodeId>): Experiment {
    Experiment(0, 0, [], nodes, map[], [])
  }

  function Of(s: Scripts, node: NodeId): seq<Instruction> {
    if node in s then s[node] else []
  }

  function Append(s: Scripts, node: NodeId, more: seq<Instruction>): Scripts {
    s[node := Of(s, node) + more]
  }

  // ---- Operations ----

  /** `list.remove`: the first occurrence goes; the source raises an error if there is none. */
  function RemoveFirst(s: seq<NodeId>, x: NodeId): Option<seq<NodeId>> {
    if s == [] then None
    else if s[0] == x then Some(s[1..])
    else
      match RemoveFirst(s[1..], x)
      case None => None
      case Some(rest) => Some([s[0]] + rest)
  }

  function Activate(e: Experiment, node: NodeId): Option<Experiment> {
    match RemoveFirst(e.ready, node)
    case None => None
    case Some(ready) => Some(e.(ready := ready, active := e.active + [node]))
  }

  function Deactivate(e: Experiment, node: NodeId): Option<Experiment> {
    match RemoveFirst(e.active, node)
    case None => None
    case Some(active) => Some(e.(active := active))
  }

  function AsSet(s: seq<NodeId>): set<NodeId> {
    set x | x in s
  }

  function Subscriptions(topics: seq<nat>): seq<Command> {
    seq(|topics|, i requires 0 <= i < |topics| => SubscribeTo(topics[i]))
  }

  /** `setup_node`; all peers have to be active. */
  function SetupNode(e: Experiment, node: NodeId, peers: seq<NodeId>, topics: seq<nat>): Option<Experiment> {
    if AsSet(peers) <= AsSet(e.active) then
      Some(e.(scripts := Append(e.scripts, node, [Instruction(e.elapsed, [ConnectTo(peers)] + Subscriptions(topics))])))
    else None
  }

  function NewPhase(e: Experiment, warmup: int, cooldown: int): Phase {
    Phase(warmup, cooldown, map[], 0, AsSet(e.active), [])
  }

  function MainEnd(e: Experiment, p: Phase): int { e.elapsed + p.warmup + p.duration }

  function PhaseEnd(e: Experiment, p: Phase): int { MainEnd(e, p) + p.cooldown }

  /** `add_message`; the node has to have been active when the phase was opened. */
  function AddMessage(e: Experiment, p: Phase, delay: int, node: NodeId, size: nat,
                      topic: nat): Option<(Experiment, Phase)> {
    if node !in p.activeIds then None
    else
      var p1 := p.(duration := p.duration + delay);
      var time := MainEnd(e, p1);
      Some((e.(nextId := e.nextId + 1),
            p1.(main := Append(p.main, node, [Instruction(time, [PublishMessage(e.nextId, topic, size)])]),
                messages := p.messages + [Message(e.nextId, node, size, topic, time)])))
  }

  /** The loop of `_apply`: the main phase of every active node, and an empty instruction at the end. */
  function Laid(scripts: Scripts, nodes: seq<NodeId>, main: Scripts, end: int): Scripts {
    if nodes == [] then scripts
    else
      var k := |nodes| - 1;
      Append(Laid(scripts, nodes[..k], main, end), nodes[k], Of(main, nodes[k]) + [Instruction(end, [])])
  }

  function Apply(e: Experiment, p: Phase): Experiment {
    e.(scripts := Laid(e.scripts, e.active, p.main, PhaseEnd(e, p)),
       phases := e.phases + [PhaseInfo(p.activeIds, p.messages)],
       elapsed := PhaseEnd(e, p))
  }

  // ---- The objects ----

  /** `ExperimentState`, shared by the experiment and its phases. */
  class ExperimentState {
    var elapsedTimeMs: int
    var nextMessageId: nat
    var activeSet: seq<NodeId>
    var readySet: seq<NodeId>

    constructor (ready: seq<NodeId>)
      ensures elapsedTimeMs == 0 && nextMessageId == 0 && activeSet == [] && readySet == ready
    {
      elapsedTimeMs, nextMessageId, activeSet, readySet := 0, 0, [], ready;
    }
  }

  class ExperimentPhase {
    const state: ExperimentState
    const warmupTimeMs: int
    const cooldownTimeMs: int
    var mainPhase: Scripts
    var mainPhaseDurationMs: int
    const activeIds: set<NodeId>
    var messages: seq<Message>

    ghost function Value(): Phase
      reads this
    {
      Phase(warmupTimeMs, cooldownTimeMs, mainPhase, mainPhaseDurationMs, activeIds, messages)
    }

    constructor (state: ExperimentState, warmupMs: int, cooldownMs: int)
      ensures this.state == state
      ensures Value() == Phase(warmupMs, cooldownMs, map[], 0, AsSet(state.activeSet), [])
    {
      this.state, warmupTimeMs, cooldownTimeMs := state, warmupMs, cooldownMs;
      mainPhase, mainPhaseDurationMs, messages := map[], 0, [];
      activeIds := AsSet(state.activeSet);
    }

    method Add(ghost e: ExperimentDriver, delayMs: int, node: NodeId, size: nat, topic: nat) returns (id: Option<nat>)
      requires e.state == state
      modifies this, state
      ensures match AddMessage(old(e.Value()), old(Value()), delayMs, node, size, topic)
              case None => id == None && e.Value() == old(e.Value()) && Value() == old(Value())
              case Some((e', p')) => id == Some(old(e.Value().nextId)) && e.Value() == e' && Value() == p'
    {
      if node !in activeIds {
        return None;
      }
      mainPhaseDurationMs := mainPhaseDurationMs + delayMs;
      var messageId := state.nextMessageId;
      state.nextMessageId := state.nextMessageId + 1;
      var time := state.elapsedTimeMs + warmupTimeMs + mainPhaseDurationMs;
      mainPhase := Append(mainPhase, node, [Instruction(time, [PublishMessage(messageId, topic, size)])]);
      messages := messages + [Message(messageId, node, size, topic, time)];
      return Some(messageId);
    }
  }

  class ExperimentDriver {
    const state: ExperimentState
    var instructions: Scripts
    var phases: seq<PhaseInfo>

    ghost function Value(): Experiment
      reads this, state
    {
      Experiment(state.elapsedTimeMs, state.nextMessageId, state.activeSet, state.readySet, instructions, phases)
    }

    constructor (nodes: seq<NodeId>)
      ensures Value() == NewExperiment(nodes) && fresh(state)
    {
      state := new ExperimentState(nodes);
      instructions, phases := map[], [];
    }

    /** `activate_nodes` for one node. */
    method ActivateNode(node: NodeId) returns (ok: bool)
      modifies state
      ensures match Activate(old(Value()), node)
              case None => !ok && Value() == old(Value())
              case Some(e) => ok && Value() == e
    {
      var ready := RemoveFirst(state.readySet, node);
      if ready.None? {
        return false;
      }
      state.readySet := ready.value;
      state.activeSet := state.activeSet + [node];
      return true;
    }

    /** `deactivate_nodes` for one node. */
    method DeactivateNode(node: NodeId) returns (ok: bool)
      modifies state
      ensures match Deactivate(old(Value()), node)
              case None => !ok && Value() == old(Value())
              case Some(e) => ok && Value() == e
    {
      var active := RemoveFirst(state.activeSet, node);
      if active.None? {
        return false;
      }
      state.activeSet := active.value;
      return true;
    }

    method Setup(node: NodeId, peers: seq<NodeId>, topics: seq<nat>) returns (ok: bool)
      modifies this
      ensures match SetupNode(old(Value()), node, peers, topics)
              case None => !ok && Value() == old(Value())
              case Some(e) => ok && Value() == e
    {
      if !(AsSet(peers) <= AsSet(state.activeSet)) {
        return false;
      }
      instructions := Append(instructions, node,
                             [Instruction(state.elapsedTimeMs, [ConnectTo(peers)] + Subscriptions(topics))]);
      return true;
    }

    /** `apply_phase` with the loop of `_apply`. */
    method ApplyPhase(phase: ExperimentPhase)
      requires phase.state == state
      modifies this, state
      ensures Value() == Apply(old(Value()), phase.Value())
    {
      var end := state.elapsedTimeMs + phase.warmupTimeMs + phase.mainPhaseDurationMs + phase.cooldownTimeMs;
      var active := state.activeSet;
      for i := 0 to |active|
        invariant instructions == Laid(old(instructions), active[..i], phase.mainPhase, end)
        invariant unchanged(state) && unchanged(phase) && phases == old(phases)
      {
        assert active[..i + 1][..i] == active[..i];
        AppendTwice(instructions, active[i], Of(phase.mainPhase, active[i]), [Instruction(end, [])]);
        instructions := Append(instructions, active[i], Of(phase.mainPhase, active[i]));
        instructions := Append(instructions, active[i], [Instruction(end, [])]);
      }
      assert active[..|active|] == active;
      phases := phases + [PhaseInfo(phase.activeIds, phase.messages)];
      state.elapsedTimeMs := end;
    }

    /** The last part of `finalize`: the time of the experiment in whole seconds. The source raises an
        error if no script has an instruction. */
    method FinalSeconds() returns (seconds: Option<int>)
      ensures seconds.None? <==> AllEmpty(Value().scripts)
      ensures seconds.Some? ==> IsLatest(Value().scripts, seconds.value)
    {
      var last: Option<int> := None;
      var left := instructions.Keys;
      while left != {}
        invariant left <= instructions.Keys
        invariant last.None? ==> forall node :: node in instructions && node !in left ==> instructions[node] == []
        invariant last.Some? ==>
                    && (exists node :: EndsAt(instructions, node, last.value))
                    && forall node :: node in instructions && node !in left && instructions[node] != [] ==>
                                        instructions[node][|instructions[node]| - 1].time <= last.value
        decreases |left|
      {
        var node :| node in left;
        left := left - {node};
        var script := instructions[node];
        if script != [] {
          var time := script[|script| - 1].time;
          assert EndsAt(instructions, node, time);
          if last.None? || last.value < time {
            last := Some(time);
          }
        }
      }
      seconds := if last.None? then None else Some((last.value + 999) / 1000);
    }
  }

  ghost predicate AllEmpty(s: Scripts) {
    forall node :: node in s ==> s[node] == []
  }

  lemma AppendTwice(s: Scripts, node: NodeId, a: seq<Instruction>, b: seq<Instruction>)
    ensures Append(Append(s, node, a), node, b) == Append(s, node, a + b)
  {
    assert Of(s, node) + a + b == Of(s, node) + (a + b);
  }

  ghost predicate EndsAt(s: Scripts, node: NodeId, time: int) {
    node in s && s[node] != [] && s[node][|s[node]| - 1].time == time
  }

  /** Some script ends within the last of the seconds, and none later. */
  ghost predicate IsLatest(s: Scripts, seconds: int) {
    && (forall node :: node in s && s[node] != [] ==> s[node][|s[node]| - 1].time <= 1000 * seconds)
    && exists node, time :: EndsAt(s, node, time) && 1000 * (seconds - 1) < time
  }
}

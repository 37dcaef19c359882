/** The counter of rpc.rs at the granularity of its atomic operations: one sender that loads, tests,
    stores and enqueues, any number of receivers that dequeue and then subtract, or drop what is
    stale and do not, or go with what they have peeked. */
module QueueCounter {
  import opened Types
  import opened SendQueues

  /** Where the sender is inside `send_transaction`. */
  datatype Sender = Idle | Loaded(rpc: RpcOut, value: nat) | Stored(rpc: RpcOut)

  /** A receiver: what it has peeked, whether it has a `fetch_sub` to do for a message it took, and
      whether its handler has dropped it. */
  datatype Receiver = Receiver(slot: Option<RpcOut>, due: bool, gone: bool)

  /** `leaked` is history that no step reads: by how much the counter has been left too high. */
  datatype Shared = Shared(cap: nat, len: nat, sender: Sender, channel: seq<RpcOut>, receivers: seq<Receiver>,
                           closed: bool, leaked: nat)

  datatype Step =
    | Load(rpc: RpcOut)
    | Store
    | Enqueue
    | SendControl(rpc: RpcOut)
    | Peek(r: nat)
    | Take(r: nat)
    | Subtract(r: nat)
    | DropStale(r: nat)
    | DropReceiver(r: nat)
    | Close

  function Fresh(cap: nat, receivers: nat): Shared {
    Shared(cap, 0, Idle, [], seq(receivers, i => Receiver(None, false, false)), false, 0)
  }

  /** A receiver starts an operation only when it has finished the last one, and while it is there. */
  predicate Ready(c: Shared, r: nat) {
    r < |c.receivers| && !c.receivers[r].due && !c.receivers[r].gone
  }

  /** What the next peek of `r` shows. */
  function Shown(c: Shared, r: nat): Option<RpcOut>
    requires r < |c.receivers|
  {
    if c.receivers[r].slot.Some? then c.receivers[r].slot else if c.channel != [] then Some(c.channel[0]) else None
  }

  predicate Enabled(c: Shared, s: Step) {
    match s
    case Load(rpc) => c.sender == Idle && rpc.Publish?
    case Store => c.sender.Loaded?
    case Enqueue => c.sender.Stored?
    case SendControl(rpc) => c.sender == Idle && rpc.IsControl()
    case Peek(r) => Ready(c, r)
    case Take(r) => Ready(c, r) && Shown(c, r).Some?
    case Subtract(r) => r < |c.receivers| && c.receivers[r].due
    case DropStale(r) => Ready(c, r) && Shown(c, r).Some? && Shown(c, r).value.Publish?
    case DropReceiver(r) => Ready(c, r)
    case Close => true
  }

  /** The head of the channel is in the slot of `r`, if there is a head and the slot was empty. */
  function Peeked(c: Shared, r: nat): Shared
    requires r < |c.receivers|
  {
    if c.receivers[r].slot.None? && c.channel != [] then
      c.(channel := c.channel[1..], receivers := c.receivers[r := c.receivers[r].(slot := Some(c.channel[0]))])
    else c
  }

  predicate HoldsPublish(c: Shared, r: nat) {
    r < |c.receivers| && c.receivers[r].slot.Some? && c.receivers[r].slot.value.Publish?
  }

  /** By how much a step leaves the counter too high: a stale or a peeked `Publish` is dropped without
      being subtracted, a store undoes the subtractions since its load, and a closed channel refuses
      what has been counted. */
  function Leak(c: Shared, s: Step): nat {
    if !Enabled(c, s) then 0
    else
      match s
      case DropStale(_) => 1
      case DropReceiver(r) => if HoldsPublish(c, r) then 1 else 0
      case Store => if c.sender.value > c.len then c.sender.value - c.len else 0
      case Enqueue => if c.closed then 1 else 0
      case _ => 0
  }

  function Do(c: Shared, s: Step): Shared {
    if !Enabled(c, s) then c
    else Effect(c, s).(leaked := c.leaked + Leak(c, s))
  }

  function Effect(c: Shared, s: Step): Shared
    requires Enabled(c, s)
  {
    match s
    case Load(rpc) => if c.len >= c.cap then c else c.(sender := Loaded(rpc, c.len))
    case Store => c.(len := c.sender.value + 1, sender := Stored(c.sender.rpc))
    case Enqueue => c.(sender := Idle, channel := if c.closed then c.channel else c.channel + [c.sender.rpc])
    case SendControl(rpc) => if c.closed then c else c.(channel := c.channel + [rpc])
    case Peek(r) => Peeked(c, r)
    case Take(r) =>
      var p := Peeked(c, r);
      p.(receivers := p.receivers[r := Receiver(None, p.receivers[r].slot.value.Publish?, false)])
    case Subtract(r) =>
      c.(len := (c.len + MAX_U64) % (MAX_U64 + 1), receivers := c.receivers[r := c.receivers[r].(due := false)])
    case DropStale(r) =>
      var p := Peeked(c, r);
      p.(receivers := p.receivers[r := Receiver(None, false, false)])
    case DropReceiver(r) => c.(receivers := c.receivers[r := Receiver(None, false, true)])
    case Close => c.(closed := true)
  }

  function Run(c: Shared, steps: seq<Step>): Shared {
    if steps == [] then c else Do(Run(c, steps[..|steps| - 1]), steps[|steps| - 1])
  }

  // ---- Counting ----

  function Weight(r: Receiver): nat {
    (if r.slot.Some? && r.slot.value.Publish? then 1 else 0) + if r.due then 1 else 0
  }

  /** The `Publish` messages the receivers hold or have taken and not yet subtracted. */
  function Weights(rs: seq<Receiver>): nat {
    if rs == [] then 0 else Weights(rs[..|rs| - 1]) + Weight(rs[|rs| - 1])
  }

  lemma {:induction false} WeightsUpdate(rs: seq<Receiver>, i: nat, r: Receiver)
    requires i < |rs|
    ensures Weights(rs[i := r]) == Weights(rs) - Weight(rs[i]) + Weight(r)
  {
    var k := |rs| - 1;
    if i < k {
      WeightsUpdate(rs[..k], i, r);
      assert rs[i := r][..k] == rs[..k][i := r];
    } else {
      assert rs[i := r][..k] == rs[..k];
    }
  }

  lemma {:induction false} WeightsAtLeast(rs: seq<Receiver>, i: nat)
    requires i < |rs|
    ensures Weights(rs) >= Weight(rs[i])
  {
    if i < |rs| - 1 {
      WeightsAtLeast(rs[..|rs| - 1], i);
    }
  }

  lemma {:induction false} FreshWeights(n: nat)
    ensures Weights(seq(n, i => Receiver(None, false, false))) == 0
  {
    if n > 0 {
      FreshWeights(n - 1);
      assert seq(n, i => Receiver(None, false, false))[..n - 1] == seq(n - 1, i => Receiver(None, false, false));
    }
  }

  /** Everything counted and still to be uncounted: in the channel, at a receiver, or in the sender's
      hands between store and enqueue. */
  function Outstanding(c: Shared): nat {
    PublishCount(c.channel) + Weights(c.receivers) + if c.sender.Stored? then 1 else 0
  }

  /** The counter is what is outstanding plus what has leaked, and never above the bound. */
  ghost predicate Accounted(c: Shared) {
    && c.len == Outstanding(c) + c.leaked
    && c.len <= c.cap <= MAX_U64
    && (c.sender.Loaded? ==> c.len <= c.sender.value < c.cap && c.sender.rpc.Publish?)
    && (c.sender.Stored? ==> c.sender.rpc.Publish?)
  }

  lemma PeekedOutstanding(c: Shared, r: nat)
    requires r < |c.receivers|
    ensures var p := Peeked(c, r);
            && p == c.(channel := p.channel, receivers := p.receivers) && |p.receivers| == |c.receivers|
            && Outstanding(p) == Outstanding(c) && p.receivers[r].due == c.receivers[r].due
            && p.receivers[r].slot == Shown(c, r)
  {
    if c.receivers[r].slot.None? && c.channel != [] {
      WeightsUpdate(c.receivers, r, c.receivers[r].(slot := Some(c.channel[0])));
    }
  }

  lemma StepAccounted(c: Shared, s: Step)
    requires Accounted(c)
    ensures Accounted(Do(c, s))
    ensures s.Subtract? && Enabled(c, s) ==> c.len > 0 && Do(c, s).len == c.len - 1
  {
    hide PublishCount, Weights, Peeked, Shown;
    if Enabled(c, s) {
      match s
      case Enqueue => PublishCountAppend(c.channel, c.sender.rpc);
      case SendControl(rpc) => PublishCountAppend(c.channel, rpc);
      case Peek(r) => PeekedOutstanding(c, r);
      case Take(r) => TakeAccounted(c, r);
      case Subtract(r) => SubtractAccounted(c, r);
      case DropStale(r) =>
        PeekedOutstanding(c, r);
        WeightsUpdate(Peeked(c, r).receivers, r, Receiver(None, false, false));
      case DropReceiver(r) =>
        WeightsAtLeast(c.receivers, r);
        WeightsUpdate(c.receivers, r, Receiver(None, false, true));
      case _ =>
    }
  }

  lemma TakeAccounted(c: Shared, r: nat)
    requires Accounted(c) && Enabled(c, Take(r))
    ensures Accounted(Do(c, Take(r)))
  {
    hide PublishCount, Weights, Peeked, Shown;
    PeekedOutstanding(c, r);
    var p := Peeked(c, r);
    WeightsUpdate(p.receivers, r, Receiver(None, p.receivers[r].slot.value.Publish?, false));
  }

  lemma SubtractAccounted(c: Shared, r: nat)
    requires Accounted(c) && Enabled(c, Subtract(r))
    ensures Accounted(Do(c, Subtract(r))) && c.len > 0 && Do(c, Subtract(r)).len == c.len - 1
  {
    hide PublishCount, Weights, Peeked, Shown;
    WeightsAtLeast(c.receivers, r);
    WeightsUpdate(c.receivers, r, c.receivers[r].(due := false));
  }

  /** Under every interleaving the counter is exactly what is outstanding plus what has leaked; it
      never goes above the bound, and no `fetch_sub` ever wraps around. */
  lemma {:induction false} CounterIsExact(cap: nat, receivers: nat, steps: seq<Step>)
    requires cap <= MAX_U64
    ensures var c := Run(Fresh(cap, receivers), steps);
            && c.len == Outstanding(c) + c.leaked && PublishCount(c.channel) <= c.len <= cap
            && forall r :: 0 <= r < |c.receivers| && c.receivers[r].due ==> c.len > 0
  {
    RunAccounted(cap, receivers, steps);
    var c := Run(Fresh(cap, receivers), steps);
    forall r | 0 <= r < |c.receivers| && c.receivers[r].due
      ensures c.len > 0
    {
      WeightsAtLeast(c.receivers, r);
    }
  }

  lemma {:induction false} RunAccounted(cap: nat, receivers: nat, steps: seq<Step>)
    requires cap <= MAX_U64
    ensures Accounted(Run(Fresh(cap, receivers), steps)) && Run(Fresh(cap, receivers), steps).cap == cap
  {
    if steps == [] {
      FreshWeights(receivers);
    } else {
      var k := |steps| - 1;
      RunAccounted(cap, receivers, steps[..k]);
      StepAccounted(Run(Fresh(cap, receivers), steps[..k]), steps[k]);
    }
  }

  // ---- Leaks ----

  /** A step of the run leaves the counter too high. */
  ghost predicate LeaksAt(c: Shared, steps: seq<Step>, i: nat) {
    i < |steps| && Leak(Run(c, steps[..i]), steps[i]) > 0
  }

  lemma {:induction false} LeakedIffLeaks(c: Shared, steps: seq<Step>)
    ensures Run(c, steps).leaked >= c.leaked
    ensures Run(c, steps).leaked == c.leaked <==> forall i: nat :: !LeaksAt(c, steps, i)
  {
    if steps != [] {
      var k := |steps| - 1;
      LeakedIffLeaks(c, steps[..k]);
      forall i: nat
        ensures i < k ==> (LeaksAt(c, steps, i) <==> LeaksAt(c, steps[..k], i))
      {
        if i < k {
          assert steps[..k][..i] == steps[..i];
        }
      }
      assert LeaksAt(c, steps, k) <==> Leak(Run(c, steps[..k]), steps[k]) > 0;
      if i: nat :| LeaksAt(c, steps[..k], i) {
        assert LeaksAt(c, steps, i);
      }
    }
  }

  // ---- Leaks told by what happened ----

  ghost predicate LoadsAt(c: Shared, steps: seq<Step>, i: nat) {
    i < |steps| && steps[i].Load? && Enabled(Run(c, steps[..i]), steps[i]) &&
        Run(c, steps[..i]).len < Run(c, steps[..i]).cap
  }

  ghost predicate SubtractsAt(c: Shared, steps: seq<Step>, i: nat) {
    i < |steps| && steps[i].Subtract? && Enabled(Run(c, steps[..i]), steps[i])
  }

  ghost predicate StoresAt(c: Shared, steps: seq<Step>, i: nat) {
    i < |steps| && steps[i].Store? && Enabled(Run(c, steps[..i]), Store)
  }

  /** Before step `n`, the last load was at `j`. */
  ghost predicate LastLoad(c: Shared, steps: seq<Step>, j: nat, n: nat) {
    j < n <= |steps| && LoadsAt(c, steps, j) && forall x: nat :: j < x < n ==> !LoadsAt(c, steps, x)
  }

  /** A subtraction falls between the load at `j` and step `n`. */
  ghost predicate SubtractsBetween(c: Shared, steps: seq<Step>, j: nat, n: nat) {
    exists k: nat :: j < k < n && SubtractsAt(c, steps, k)
  }

  /** Step `i` is a store, and something was subtracted since its load. */
  ghost predicate Interrupted(c: Shared, steps: seq<Step>, i: nat) {
    StoresAt(c, steps, i) && exists j: nat :: LastLoad(c, steps, j, i) && SubtractsBetween(c, steps, j, i)
  }

  /** While the sender holds a loaded value, that value exceeds the counter exactly if something was
      subtracted since the load. */
  lemma {:induction false} LoadedValue(cap: nat, receivers: nat, steps: seq<Step>, n: nat) returns (j: nat)
    requires cap <= MAX_U64 && n <= |steps| && Run(Fresh(cap, receivers), steps[..n]).sender.Loaded?
    ensures LastLoad(Fresh(cap, receivers), steps, j, n)
    ensures var c := Run(Fresh(cap, receivers), steps[..n]);
            c.sender.value > c.len <==> SubtractsBetween(Fresh(cap, receivers), steps, j, n)
    decreases n
  {
    hide PublishCount, Weights, Peeked, Shown, Outstanding;
    var start := Fresh(cap, receivers);
    assert n > 0;
    assert steps[..n][..n - 1] == steps[..n - 1];
    var before := Run(start, steps[..n - 1]);
    RunAccounted(cap, receivers, steps[..n - 1]);
    StepAccounted(before, steps[n - 1]);
    if LoadsAt(start, steps, n - 1) {
      j := n - 1;
    } else {
      LoadedBefore(before, steps[n - 1]);
      j := LoadedValue(cap, receivers, steps, n - 1);
      if SubtractsAt(start, steps, n - 1) {
        assert SubtractsBetween(start, steps, j, n);
      } else {
        LoadedSame(before, steps[n - 1]);
        if SubtractsBetween(start, steps, j, n - 1) {
          var k: nat :| j < k < n - 1 && SubtractsAt(start, steps, k);
          assert SubtractsBetween(start, steps, j, n);
        }
      }
    }
  }

  lemma LoadedBefore(c: Shared, s: Step)
    requires Do(c, s).sender.Loaded? && !(s.Load? && Enabled(c, s) && c.len < c.cap)
    ensures c.sender == Do(c, s).sender
  {
    hide Peeked, Shown;
    if s.Take? || s.DropStale? || s.Peek? {
      PeekKeepsSender(c, s.r);
    }
  }

  lemma PeekKeepsSender(c: Shared, r: nat)
    ensures r < |c.receivers| ==> Peeked(c, r).sender == c.sender && Peeked(c, r).len == c.len
  {}

  lemma LoadedSame(c: Shared, s: Step)
    requires c.sender.Loaded? && Do(c, s).sender == c.sender && !(s.Subtract? && Enabled(c, s))
    ensures Do(c, s).len == c.len
  {
    hide Peeked, Shown;
    if s.Take? || s.DropStale? || s.Peek? {
      PeekKeepsSender(c, s.r);
    }
  }

  /** A store leaks exactly when a subtraction falls between its load and itself. */
  lemma StoreLeaksIffInterrupted(cap: nat, receivers: nat, steps: seq<Step>, i: nat)
    requires cap <= MAX_U64 && StoresAt(Fresh(cap, receivers), steps, i)
    ensures Leak(Run(Fresh(cap, receivers), steps[..i]), Store) > 0 <==> Interrupted(Fresh(cap, receivers), steps, i)
  {
    hide Run;
    var j := LoadedValue(cap, receivers, steps, i);
    if Interrupted(Fresh(cap, receivers), steps, i) {
      var k: nat :| LastLoad(Fresh(cap, receivers), steps, k, i) &&
          SubtractsBetween(Fresh(cap, receivers), steps, k, i);
      assert j == k by { OneLastLoad(Fresh(cap, receivers), steps, j, k, i); }
    }
  }

  lemma OneLastLoad(c: Shared, steps: seq<Step>, j: nat, k: nat, n: nat)
    requires LastLoad(c, steps, j, n) && LastLoad(c, steps, k, n)
    ensures j == k
  {
    hide LoadsAt;
  }

  /** What can go wrong with the counter: a stale Publish dropped, a receiver dropped that had peeked
      at one, a store after an interrupted load, or a counted message that meets a closed channel. */
  ghost predicate GoesWrongAt(c: Shared, steps: seq<Step>, i: nat) {
    && i < |steps|
    && var now := Run(c, steps[..i]);
       || (steps[i].DropStale? && Enabled(now, steps[i]))
       || (steps[i].DropReceiver? && Enabled(now, steps[i]) && HoldsPublish(now, steps[i].r))
       || Interrupted(c, steps, i)
       || (steps[i].Enqueue? && Enabled(now, steps[i]) && now.closed)
  }

  lemma LeaksIffGoesWrong(cap: nat, receivers: nat, steps: seq<Step>, i: nat)
    requires cap <= MAX_U64
    ensures LeaksAt(Fresh(cap, receivers), steps, i) <==> GoesWrongAt(Fresh(cap, receivers), steps, i)
  {
    hide Run, Interrupted;
    if StoresAt(Fresh(cap, receivers), steps, i) {
      StoreLeaksIffInterrupted(cap, receivers, steps, i);
    } else {
      assert !Interrupted(Fresh(cap, receivers), steps, i) by { NotAStore(Fresh(cap, receivers), steps, i); }
    }
  }

  lemma NotAStore(c: Shared, steps: seq<Step>, i: nat)
    requires !StoresAt(c, steps, i)
    ensures !Interrupted(c, steps, i)
  {}

  /** The counter counts exactly what is outstanding if and only if, in the whole run, no stale
      `Publish` was dropped, no receiver went that had peeked at one, nothing was subtracted between a
      load and its store, and nothing counted met a closed channel. */
  lemma ExactIffNothingLeaks(cap: nat, receivers: nat, steps: seq<Step>)
    requires cap <= MAX_U64
    ensures var c := Run(Fresh(cap, receivers), steps);
            c.len == Outstanding(c) <==> forall i: nat :: !GoesWrongAt(Fresh(cap, receivers), steps, i)
  {
    hide Run, GoesWrongAt, LeaksAt, Outstanding;
    RunAccounted(cap, receivers, steps);
    LeakedIffLeaks(Fresh(cap, receivers), steps);
    forall i: nat
      ensures LeaksAt(Fresh(cap, receivers), steps, i) <==> GoesWrongAt(Fresh(cap, receivers), steps, i)
    {
      LeaksIffGoesWrong(cap, receivers, steps, i);
    }
  }

  lemma {:induction false} RunConcat(c: Shared, a: seq<Step>, b: seq<Step>)
    ensures Run(c, a + b) == Run(Run(c, a), b)
  {
    if b == [] {
      assert a + b == a;
    } else {
      RunConcat(c, a, b[..|b| - 1]);
      assert (a + b)[..|a + b| - 1] == a + b[..|b| - 1];
    }
  }

  /** The sender is told that the queue is full. */
  predicate Refused(c: Shared, rpc: RpcOut) {
    c.sender == Idle && rpc.Publish? && Do(c, Load(rpc)).sender == Idle
  }

  /** A `Publish` is refused exactly when what is outstanding and what has leaked fill the bound. What
      has leaked never comes back: once it fills the bound alone, every later `Publish` is refused,
      also by an empty queue. */
  lemma LeaksAreForEver(cap: nat, receivers: nat, before: seq<Step>, after: seq<Step>, rpc: RpcOut)
    requires cap <= MAX_U64 && rpc.Publish?
    requires Run(Fresh(cap, receivers), before + after).sender == Idle
    ensures var c, c' := Run(Fresh(cap, receivers), before), Run(Fresh(cap, receivers), before + after);
            && (Refused(c', rpc) <==> Outstanding(c') + c'.leaked >= cap)
            && c'.leaked >= c.leaked
            && (c.leaked >= cap ==> Refused(c', rpc))
  {
    RunAccounted(cap, receivers, before + after);
    RunConcat(Fresh(cap, receivers), before, after);
    LeakedIffLeaks(Run(Fresh(cap, receivers), before), after);
  }

  /** A queue for one `Publish` that has let one go stale is empty and refuses for ever. */
  lemma StaleDropBlocksForEver(tx: RawTransaction, deadline: nat)
    ensures var rpc := RpcOut.Publish(tx, deadline);
            var c := Run(Fresh(1, 1), [Load(rpc), Store, Enqueue, DropStale(0)]);
            Outstanding(c) == 0 && c.leaked == 1 && forall other: RpcOut :: other.Publish? ==> Refused(c, other)
  {
    var rpc := RpcOut.Publish(tx, deadline);
    var c0 := Fresh(1, 1);
    var c1 := Do(c0, Load(rpc));
    var c2 := Do(c1, Store);
    var c3 := Do(c2, Enqueue);
    var c4 := Do(c3, DropStale(0));
    RunFour(c0, Load(rpc), Store, Enqueue, DropStale(0));
    assert c4 == Shared(1, 1, Idle, [], [Receiver(None, false, false)], false, 1);
    assert Weights([Receiver(None, false, false)]) == 0 by { assert [Receiver(None, false, false)][..0] == []; }
  }

  lemma RunFour(c: Shared, s1: Step, s2: Step, s3: Step, s4: Step)
    ensures Run(c, [s1, s2, s3, s4]) == Do(Do(Do(Do(c, s1), s2), s3), s4)
  {
    hide Do;
    assert [s1][..0] == [];
    assert Run(c, [s1]) == Do(c, s1);
    assert [s1, s2][..1] == [s1];
    assert Run(c, [s1, s2]) == Do(Do(c, s1), s2);
    assert [s1, s2, s3][..2] == [s1, s2];
    assert Run(c, [s1, s2, s3]) == Do(Do(Do(c, s1), s2), s3);
    assert [s1, s2, s3, s4][..3] == [s1, s2, s3];
  }

  /** A subtraction between the sender's load and its store is lost. */
  lemma LostSubtraction(c: Shared, rpc: RpcOut, r: nat)
    requires Accounted(c) && c.sender == Idle && rpc.Publish? && c.len < c.cap && r < |c.receivers|
    requires c.receivers[r].due
    ensures var c' := Do(Do(Do(c, Load(rpc)), Subtract(r)), Store);
            c'.leaked == c.leaked + 1 && c'.len == c.len + 1 && Outstanding(c') == Outstanding(c)
  {
    hide PublishCount, Weights;
    var c1 := Do(c, Load(rpc));
    StepAccounted(c, Load(rpc));
    var c2 := Do(c1, Subtract(r));
    StepAccounted(c1, Subtract(r));
    StepAccounted(c2, Store);
  }

  // ---- Without interruption ----

  /** The priority half of the queue, seen with a single receiver. */
  function Whole(c: Shared): SendQueue
    requires |c.receivers| == 1
  {
    SendQueue(c.cap, c.len, (if c.receivers[0].slot.Some? then [c.receivers[0].slot.value] else []) + c.channel, [],
              c.receivers[0].slot.Some?, false, c.closed)
  }

  /** `send_transaction` run without interruption is the `TrySend` of SendQueues. */
  lemma UninterruptedSend(c: Shared, rpc: RpcOut)
    requires |c.receivers| == 1 && c.sender == Idle && rpc.IsPriority()
    ensures var c' := if rpc.Publish? then Do(Do(Do(c, Load(rpc)), Store), Enqueue) else Do(c, SendControl(rpc));
            c'.sender == Idle && Whole(c') == TrySend(Whole(c), rpc).0
  {
    hide PublishCount, Weights, Outstanding;
    if rpc.Publish? && c.len >= c.cap {
      assert Do(c, Load(rpc)) == c;
    }
  }

  /** Likewise `poll_next` for a single receiver, on a queue whose counter is in order. */
  lemma UninterruptedTake(c: Shared)
    requires Accounted(c) && |c.receivers| == 1 && Ready(c, 0) && c.sender == Idle && Whole(c).priority != []
    ensures Whole(Do(Do(c, Take(0)), Subtract(0))) == PollNext(Whole(c)).0
  {
    hide PublishCount, Weights;
    StepAccounted(c, Take(0));
    var c1 := Do(c, Take(0));
    StepAccounted(c1, Subtract(0));
    assert Whole(c).priority[1..] == c1.channel;
    if Whole(c).priority[0].Publish? {
      assert c1.receivers[0].due;
    }
  }

  /** And `poll_stale` when it finds a stale `Publish` in front. */
  lemma UninterruptedStale(c: Shared, now: nat)
    requires |c.receivers| == 1 && Ready(c, 0)
    requires Whole(c).priority != [] && Whole(c).priority[0].Publish? && Whole(c).priority[0].deadline <= now
    ensures Whole(Do(c, DropStale(0))) == PollStale(Whole(c), now).0
  {
    assert Whole(c).priority[1..] == Do(c, DropStale(0)).channel;
  }

  /** And a receiver that goes with its handler. */
  lemma UninterruptedDrop(c: Shared)
    requires |c.receivers| == 1 && Ready(c, 0)
    ensures Whole(Do(c, DropReceiver(0))) == ReceiverGone(Whole(c))
  {
    if c.receivers[0].slot.Some? {
      assert Whole(c).priority[1..] == c.channel;
    }
  }
}

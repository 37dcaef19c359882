/** The accumulation of analyze_logs.py: bytes per node, send and delivery times per message, and
    snapshots of the byte counts. The meshes are not part of this model. */
module LogTotals {
  import opened Types
  import opened LogMerge

  datatype Counter = SentPayload | SentControl | ReceivedPayload | ReceivedControl

  /** The counter a line is charged to, and with how much. */
  function Charge(line: LogLine): Option<(Counter, nat)> {
    match line
    case SentMessage(_, size) => Some((SentPayload, size))
    case ReceivedMessage(_, size) => Some((ReceivedPayload, size))
    case Sent(size) => Some((SentControl, size))
    case Received(size) => Some((ReceivedControl, size))
    case Other => None
  }

  predicate Charges(e: LogEntry, node: NodeId, counter: Counter) {
    e.node == node && Charge(e.line).Some? && Charge(e.line).value.0 == counter
  }

  /** The bytes the entries charge to a counter of a node. */
  function Total(s: seq<LogEntry>, node: NodeId, counter: Counter): nat {
    if s == [] then 0
    else Total(s[..|s| - 1], node, counter) + if Charges(s[|s| - 1], node, counter) then Charge(s[|s| - 1].line).value.1
        else 0
  }

  /** The lines a counter is for. */
  predicate IsFor(counter: Counter, line: LogLine) {
    match counter
    case SentPayload => line.SentMessage?
    case ReceivedPayload => line.ReceivedMessage?
    case SentControl => line.Sent?
    case ReceivedControl => line.Received?
  }

  /** The sizes in the lines of the node that the counter is for. */
  function Sizes(s: seq<LogEntry>, node: NodeId, counter: Counter): seq<nat> {
    if s == [] then []
    else
      var e := s[|s| - 1];
      Sizes(s[..|s| - 1], node, counter) + if e.node == node && IsFor(counter, e.line) then [e.line.size] else []
  }

  function Sum(s: seq<nat>): nat {
    if s == [] then 0 else Sum(s[..|s| - 1]) + s[|s| - 1]
  }

  /** A total is the sum of the sizes in the lines its counter is for, and every line with a size is for one
      counter. */
  lemma {:induction false} TotalIsSum(s: seq<LogEntry>, node: NodeId, counter: Counter)
    ensures Total(s, node, counter) == Sum(Sizes(s, node, counter))
    ensures forall line: LogLine :: IsFor(counter, line) ==> !line.Other? && forall c :: IsFor(c, line) ==> c == counter
  {
    if s != [] {
      var k := |s| - 1;
      TotalIsSum(s[..k], node, counter);
      var before := Sizes(s[..k], node, counter);
      if s[k].node == node && IsFor(counter, s[k].line) {
        assert (before + [s[k].line.size])[..|before|] == before;
      } else {
        assert before + [] == before;
      }
    }
  }

  predicate Delivers(e: LogEntry, id: MessageId, node: NodeId) {
    e.node == node && (e.line.SentMessage? || e.line.ReceivedMessage?) && e.line.id == id
  }

  /** The time of the first entry by which the node has the message. */
  function FirstDelivery(s: seq<LogEntry>, id: MessageId, node: NodeId): Option<int> {
    if s == [] then None
    else
      var before := FirstDelivery(s[..|s| - 1], id, node);
      if before.Some? then before
      else if Delivers(s[|s| - 1], id, node) then Some(s[|s| - 1].time) else None
  }

  predicate Sends(e: LogEntry, id: MessageId) {
    e.line.SentMessage? && e.line.id == id
  }

  ghost predicate SentBy(s: seq<LogEntry>, id: MessageId, time: int, node: NodeId) {
    exists e :: e in s && Sends(e, id) && e.time == time && e.node == node
  }

  /** Time and node of the first entry that sends the message. */
  function FirstSend(s: seq<LogEntry>, id: MessageId): Option<(int, NodeId)> {
    if s == [] then None
    else
      var before := FirstSend(s[..|s| - 1], id);
      if before.Some? then before
      else if s[|s| - 1].line.SentMessage? && s[|s| - 1].line.id == id then Some((s[|s| - 1].time, s[|s| - 1].node))
          else None
  }

  /** In a log in order of time the recorded delivery is the earliest one there is. */
  lemma {:induction false} DeliveryIsEarliest(s: seq<LogEntry>, id: MessageId, node: NodeId)
    requires TimeSorted(s)
    ensures FirstDelivery(s, id, node).None? <==> forall e :: e in s ==> !Delivers(e, id, node)
    ensures FirstDelivery(s, id, node).Some? ==>
              && (exists e :: e in s && Delivers(e, id, node) && e.time == FirstDelivery(s, id, node).value)
              && forall e :: e in s && Delivers(e, id, node) ==> FirstDelivery(s, id, node).value <= e.time
  {
    hide Delivers;
    if s != [] {
      var k := |s| - 1;
      assert s[k] in s;
      DeliveryIsEarliest(s[..k], id, node);
      forall e
        ensures e in s <==> e in s[..k] || e == s[k]
        ensures e in s[..k] ==> e.time <= s[k].time
      {
        assert s == s[..k] + [s[k]];
      }
    }
  }

  // ---- Snapshots ----

  const SNAPSHOT_US := 5_000_000

  /** The window of five seconds an entry falls in. Python's integer division rounds down, as does
      Dafny's for a positive divisor. */
  function Window(time: int): int { time / SNAPSHOT_US }

  /** Entry `i` is the first in its window, and no earlier one falls in a later window. The time
      before five seconds has no snapshot. */
  ghost predicate OpensWindow(s: seq<LogEntry>, i: nat) {
    i < |s| && Window(s[i].time) >= 1 && forall j :: 0 <= j < i ==> Window(s[j].time) < Window(s[i].time)
  }

  /** The byte counts of all nodes at one moment; `taken` is the number of entries processed. */
  datatype Snapshot = Snapshot(taken: nat, time: Option<int>, counts: map<Counter, map<NodeId, nat>>)

  function Lookup(counts: map<Counter, map<NodeId, nat>>, counter: Counter, node: NodeId): nat {
    if counter in counts && node in counts[counter] then counts[counter][node] else 0
  }

  /** A snapshot shows the totals of what has been processed. */
  ghost predicate ShowsTotals(s: seq<LogEntry>, shot: Snapshot) {
    && shot.taken <= |s|
    && forall counter, node :: Lookup(shot.counts, counter, node) == Total(s[..shot.taken], node, counter)
  }

  /** The snapshot was taken at an entry that opens a window. */
  ghost predicate TakenAtOpening(s: seq<LogEntry>, shot: Snapshot) {
    0 < shot.taken <= |s| && OpensWindow(s, shot.taken - 1) && shot.time == Some(s[shot.taken - 1].time)
  }

  ghost predicate HasSnapshot(shots: seq<Snapshot>, taken: nat) {
    exists shot :: shot in shots && shot.taken == taken
  }

  ghost predicate Ascending(shots: seq<Snapshot>) {
    forall j, k :: 0 <= j < k < |shots| ==> shots[j].taken < shots[k].taken
  }

  /** The snapshots taken while going through the entries are those at the entries that open a window,
      in order. */
  ghost predicate SnapshotsAt(s: seq<LogEntry>, shots: seq<Snapshot>) {
    && (forall shot :: shot in shots ==> TakenAtOpening(s, shot) && ShowsTotals(s, shot))
    && Ascending(shots)
    && (forall i: nat :: OpensWindow(s, i) ==> HasSnapshot(shots, i + 1))
  }

  /** Snapshots taken at entries fall in different windows, one after the other. */
  lemma WindowsDiffer(s: seq<LogEntry>, shots: seq<Snapshot>, j: nat, k: nat)
    requires SnapshotsAt(s, shots) && j < k < |shots|
    ensures shots[j].time.Some? && shots[k].time.Some? && Window(shots[j].time.value) < Window(shots[k].time.value)
  {
    hide ShowsTotals, HasSnapshot;
    assert shots[j] in shots && shots[k] in shots;
  }

  /** In a log in order of time the entries that open a window are the first ones of their windows. */
  lemma OpensWindowWhenSorted(s: seq<LogEntry>, i: nat)
    requires TimeSorted(s) && i < |s|
    ensures OpensWindow(s, i) <==>
              s[i].time >= 5_000_000 && (i > 0 ==> s[i - 1].time / 5_000_000 < s[i].time / 5_000_000)
  {
    if i > 0 && Window(s[i - 1].time) < Window(s[i].time) {
      forall j | 0 <= j < i
        ensures Window(s[j].time) < Window(s[i].time)
      {
        assert s[j].time <= s[i - 1].time;
      }
    }
  }

  // ---- The accumulator ----

  datatype MessageData = MessageData(source: NodeId, sent: int, received: map<NodeId, int>)

  /** The next snapshot is due at the end of the last window that any entry has reached. */
  ghost predicate DueAfter(s: seq<LogEntry>, next: int) {
    && next % SNAPSHOT_US == 0 && next >= SNAPSHOT_US
    && (forall i :: 0 <= i < |s| ==> s[i].time < next)
    && (next == SNAPSHOT_US || exists i :: 0 <= i < |s| && Window(s[i].time) == next / SNAPSHOT_US - 1)
  }

  class LogProcessor {
    var bytes: map<Counter, map<NodeId, nat>>
    var sendTimes: map<MessageId, (int, NodeId)>
    var deliveryTimes: map<MessageId, map<NodeId, int>>
    var snapshots: seq<Snapshot>

    /** The accumulators hold what the entries say. */
    ghost predicate Holds(s: seq<LogEntry>)
      reads this
    {
      && (forall counter, node :: Lookup(bytes, counter, node) == Total(s, node, counter))
      && (forall id, node :: FirstDelivery(s, id, node) == DeliveryOf(id, node))
      && (forall id :: FirstSend(s, id) == if id in sendTimes then Some(sendTimes[id]) else None)
    }

    function DeliveryOf(id: MessageId, node: NodeId): Option<int>
      reads this
    {
      if id in deliveryTimes && node in deliveryTimes[id] then Some(deliveryTimes[id][node]) else None
    }

    constructor ()
      ensures Holds([]) && snapshots == []
    {
      bytes, sendTimes, deliveryTimes, snapshots := map[], map[], map[], [];
    }

    /** `register_sent_bytes` and `register_received_bytes`. */
    method RegisterBytes(counter: Counter, node: NodeId, size: nat)
      modifies this`bytes
      ensures forall c, n :: Lookup(bytes, c, n) == old(Lookup(bytes, c, n)) + if c == counter && n == node then size
                else 0
    {
      var counts: map<NodeId, nat> := if counter in bytes then bytes[counter] else map[];
      var count: nat := if node in counts then counts[node] else 0;
      bytes := bytes[counter := counts[node := count + size]];
    }

    method RegisterMessageSend(id: MessageId, node: NodeId, time: int)
      modifies this`sendTimes, this`deliveryTimes
      ensures sendTimes == if id in old(sendTimes) then old(sendTimes) else old(sendTimes)[id := (time, node)]
      ensures forall i, n :: DeliveryOf(i, n) == if i == id && n == node && old(DeliveryOf(i, n)).None? then Some(time)
                else old(DeliveryOf(i, n))
    {
      if id !in sendTimes {
        sendTimes := sendTimes[id := (time, node)];
      }
      RegisterMessageDelivery(id, node, time);
    }

    method RegisterMessageDelivery(id: MessageId, node: NodeId, time: int)
      modifies this`deliveryTimes
      ensures forall i, n :: DeliveryOf(i, n) == if i == id && n == node && old(DeliveryOf(i, n)).None? then Some(time)
                else old(DeliveryOf(i, n))
    {
      if id !in deliveryTimes {
        deliveryTimes := deliveryTimes[id := map[]];
      }
      if node !in deliveryTimes[id] {
        deliveryTimes := deliveryTimes[id := deliveryTimes[id][node := time]];
      }
    }

    method Enter(ghost s: seq<LogEntry>, e: LogEntry)
      requires Holds(s)
      modifies this`bytes, this`sendTimes, this`deliveryTimes
      ensures Holds(s + [e])
    {
      assert (s + [e])[..|s|] == s;
      match e.line {
        case SentMessage(id, size) =>
          RegisterMessageSend(id, e.node, e.time);
          RegisterBytes(SentPayload, e.node, size);
        case ReceivedMessage(id, size) =>
          RegisterMessageDelivery(id, e.node, e.time);
          RegisterBytes(ReceivedPayload, e.node, size);
        case Sent(size) =>
          RegisterBytes(SentControl, e.node, size);
        case Received(size) =>
          RegisterBytes(ReceivedControl, e.node, size);
        case Other =>
      }
    }

    /** `process_logs`. After the last entry one more snapshot is taken, of everything. */
    method ProcessLogs(logs: seq<LogEntry>)
      requires Holds([]) && snapshots == []
      modifies this
      ensures Holds(logs)
      ensures snapshots != [] && SnapshotsAt(logs, snapshots[..|snapshots| - 1])
      ensures var last := snapshots[|snapshots| - 1];
              ShowsTotals(logs, last) && last.taken == |logs| && last.time == if logs == [] then None
                  else Some(logs[|logs| - 1].time)
    {
      hide Total, FirstDelivery, FirstSend, Lookup, OpensWindow, SnapshotsAt, DueAfter, ShowsTotals;
      var nextSnapshot := SNAPSHOT_US;
      var elapsed: Option<int> := None;
      StartSnapshots();
      for i := 0 to |logs|
        invariant Holds(logs[..i])
        invariant SnapshotsAt(logs[..i], snapshots) && DueAfter(logs[..i], nextSnapshot)
        invariant elapsed == if i == 0 then None else Some(logs[i - 1].time)
      {
        var log := logs[i];
        elapsed := Some(log.time);
        assert logs[..i + 1] == logs[..i] + [log];
        Enter(logs[..i], log);
        ghost var before := nextSnapshot;
        ghost var shots := snapshots;
        DueDecides(logs[..i], log, before);
        if log.time >= nextSnapshot {
          snapshots := snapshots + [Snapshot(i + 1, elapsed, bytes)];
          ShowsNow(logs[..i + 1], snapshots[|snapshots| - 1]);
          while log.time >= nextSnapshot
            invariant nextSnapshot % SNAPSHOT_US == 0 && before <= nextSnapshot &&
                        nextSnapshot <= SNAPSHOT_US * (Window(log.time) + 1)
            decreases log.time - nextSnapshot
          {
            nextSnapshot := nextSnapshot + SNAPSHOT_US;
          }
          OneMoreSnapshot(logs[..i], log, shots, snapshots[|snapshots| - 1]);
          DueLater(logs[..i], log, before, nextSnapshot);
        } else {
          NoSnapshot(logs[..i], log, shots);
          DueStays(logs[..i], log, before);
        }
      }
      assert logs[..|logs|] == logs;
      snapshots := snapshots + [Snapshot(|logs|, elapsed, bytes)];
      ShowsNow(logs, snapshots[|snapshots| - 1]);
    }

    lemma ShowsNow(s: seq<LogEntry>, shot: Snapshot)
      requires Holds(s) && shot.counts == bytes && shot.taken == |s|
      ensures ShowsTotals(s, shot)
    {
      hide Total, Lookup, FirstDelivery, FirstSend;
      assert s[..|s|] == s;
    }

    /** The contents of messages.json: every message that was sent, with its source, the time it was
        sent and when each node had it. */
    function Messages(): map<MessageId, MessageData>
      reads this
    {
      map id | id in sendTimes ::
        MessageData(sendTimes[id].1, sendTimes[id].0, if id in deliveryTimes then deliveryTimes[id] else map[])
    }

    /** What is written for a message is what the log says of it. */
    lemma MessagesTellTheLog(logs: seq<LogEntry>, id: MessageId, node: NodeId)
      requires Holds(logs) && TimeSorted(logs)
      ensures id in Messages() <==> exists e :: e in logs && Sends(e, id)
      ensures id in Messages() ==>
                && SentBy(logs, id, Messages()[id].sent, Messages()[id].source)
                && (forall e :: e in logs && Sends(e, id) ==> Messages()[id].sent <= e.time)
                && (node in Messages()[id].received <==> exists e :: e in logs && Delivers(e, id, node))
                && (node in Messages()[id].received ==>
                      && (exists e :: e in logs && Delivers(e, id, node) && e.time == Messages()[id].received[node])
                      && forall e :: e in logs && Delivers(e, id, node) ==> Messages()[id].received[node] <= e.time)
    {
      hide Total, Lookup, FirstDelivery, FirstSend, TimeSorted;
      DeliveryIsEarliest(logs, id, node);
      SendIsFirst(logs, id);
      assert FirstDelivery(logs, id, node) == DeliveryOf(id, node);
      assert FirstSend(logs, id) == if id in sendTimes then Some(sendTimes[id]) else None;
    }
  }

  lemma {:induction false} SendIsFirst(s: seq<LogEntry>, id: MessageId)
    requires TimeSorted(s)
    ensures FirstSend(s, id).Some? <==> exists e :: e in s && Sends(e, id)
    ensures FirstSend(s, id).Some? ==>
              var (time, node) := FirstSend(s, id).value;
              && SentBy(s, id, time, node)
              && forall e :: e in s && Sends(e, id) ==> time <= e.time
  {
    hide Sends;
    if s != [] {
      var k := |s| - 1;
      assert s[k] in s;
      SendMeans(s[k], id);
      SendIsFirst(s[..k], id);
      forall e
        ensures e in s <==> e in s[..k] || e == s[k]
        ensures e in s[..k] ==> e.time <= s[k].time
      {
        assert s == s[..k] + [s[k]];
      }
    }
  }

  lemma SendMeans(e: LogEntry, id: MessageId)
    ensures Sends(e, id) <==> e.line.SentMessage? && e.line.id == id
  {
  }

  lemma StartSnapshots()
    ensures SnapshotsAt([], []) && DueAfter([], SNAPSHOT_US)
  {}

  lemma WindowBounds(time: int, w: int)
    ensures Window(time) >= w <==> time >= 5_000_000 * w
  {}

  /** A snapshot is due exactly at an entry that opens a window. */
  lemma DueDecides(s: seq<LogEntry>, e: LogEntry, next: int)
    requires DueAfter(s, next)
    ensures next % SNAPSHOT_US == 0 && (e.time >= next <==> OpensWindow(s + [e], |s|))
    ensures next <= e.time ==> next <= SNAPSHOT_US * (Window(e.time) + 1)
  {
    var w := next / SNAPSHOT_US;
    assert next == SNAPSHOT_US * w;
    WindowBounds(e.time, w);
    forall j | 0 <= j < |s|
      ensures Window(s[j].time) < w && (s + [e])[j] == s[j]
    {
      WindowBounds(s[j].time, w);
    }
    if e.time < next && w > 1 {
      var i :| 0 <= i < |s| && Window(s[i].time) == w - 1;
      assert (s + [e])[i] == s[i];
    }
  }

  lemma DueLater(s: seq<LogEntry>, e: LogEntry, next: int, next': int)
    requires DueAfter(s, next) && next <= next' && next' % SNAPSHOT_US == 0
    requires next <= e.time < next' <= SNAPSHOT_US * (Window(e.time) + 1)
    ensures DueAfter(s + [e], next')
  {
    var w := next' / SNAPSHOT_US;
    assert next' == SNAPSHOT_US * w;
    WindowBounds(e.time, w);
    assert (s + [e])[|s|] == e;
  }

  lemma DueStays(s: seq<LogEntry>, e: LogEntry, next: int)
    requires DueAfter(s, next) && e.time < next
    ensures DueAfter(s + [e], next)
  {
    if next != SNAPSHOT_US {
      var i :| 0 <= i < |s| && Window(s[i].time) == next / SNAPSHOT_US - 1;
      assert (s + [e])[i] == s[i];
    }
  }

  lemma OpensLonger(s: seq<LogEntry>, e: LogEntry, i: nat)
    requires i < |s|
    ensures OpensWindow(s + [e], i) <==> OpensWindow(s, i)
  {
    assert forall j :: 0 <= j <= i ==> (s + [e])[j] == s[j];
  }

  lemma SnapshotLonger(s: seq<LogEntry>, e: LogEntry, shot: Snapshot)
    requires ShowsTotals(s, shot)
    ensures ShowsTotals(s + [e], shot)
  {
    hide Total, Lookup;
    assert (s + [e])[..shot.taken] == s[..shot.taken];
  }

  lemma FitsLonger(s: seq<LogEntry>, e: LogEntry, shots: seq<Snapshot>, shot: Snapshot)
    requires SnapshotsAt(s, shots) && shot in shots
    ensures TakenAtOpening(s + [e], shot) && ShowsTotals(s + [e], shot) && shot.taken <= |s|
  {
    hide OpensWindow, ShowsTotals, HasSnapshot, Ascending;
    OpensLonger(s, e, shot.taken - 1);
    SnapshotLonger(s, e, shot);
  }

  lemma NoSnapshot(s: seq<LogEntry>, e: LogEntry, shots: seq<Snapshot>)
    requires SnapshotsAt(s, shots) && !OpensWindow(s + [e], |s|)
    ensures SnapshotsAt(s + [e], shots)
  {
    hide OpensWindow, ShowsTotals, TakenAtOpening, HasSnapshot;
    forall shot | shot in shots
      ensures TakenAtOpening(s + [e], shot) && ShowsTotals(s + [e], shot)
    {
      FitsLonger(s, e, shots, shot);
    }
    forall i: nat | OpensWindow(s + [e], i)
      ensures HasSnapshot(shots, i + 1)
    {
      OpensInside(s + [e], i);
      OpensLonger(s, e, i);
    }
  }

  lemma OpensInside(s: seq<LogEntry>, i: nat)
    requires OpensWindow(s, i)
    ensures i < |s|
  {}

  lemma OneMoreSnapshot(s: seq<LogEntry>, e: LogEntry, shots: seq<Snapshot>, shot: Snapshot)
    requires SnapshotsAt(s, shots) && OpensWindow(s + [e], |s|)
    requires shot.taken == |s| + 1 && shot.time == Some(e.time) && ShowsTotals(s + [e], shot)
    ensures SnapshotsAt(s + [e], shots + [shot])
  {
    hide OpensWindow, ShowsTotals, TakenAtOpening, HasSnapshot, Ascending;
    forall x | x in shots + [shot]
      ensures TakenAtOpening(s + [e], x) && ShowsTotals(s + [e], x)
    {
      if x in shots {
        FitsLonger(s, e, shots, x);
      } else {
        NewFits(s, e, x);
      }
    }
    forall k | 0 <= k < |shots|
      ensures shots[k].taken <= |s|
    {
      FitsLonger(s, e, shots, shots[k]);
    }
    StillAscending(shots, shot, |s|);
    forall i: nat | OpensWindow(s + [e], i)
      ensures HasSnapshot(shots + [shot], i + 1)
    {
      OpensInside(s + [e], i);
      if i < |s| {
        OpensLonger(s, e, i);
        HasMore(shots, shot, i + 1);
      } else {
        assert shot in shots + [shot];
        HasOne(shots + [shot], shot);
      }
    }
  }

  lemma NewFits(s: seq<LogEntry>, e: LogEntry, shot: Snapshot)
    requires OpensWindow(s + [e], |s|) && shot.taken == |s| + 1 && shot.time == Some(e.time)
    ensures TakenAtOpening(s + [e], shot)
  {
    hide OpensWindow;
  }

  lemma StillAscending(shots: seq<Snapshot>, shot: Snapshot, n: nat)
    requires Ascending(shots) && shot.taken > n && forall k :: 0 <= k < |shots| ==> shots[k].taken <= n
    ensures Ascending(shots + [shot])
  {}

  lemma HasMore(shots: seq<Snapshot>, shot: Snapshot, taken: nat)
    requires HasSnapshot(shots, taken)
    ensures HasSnapshot(shots + [shot], taken)
  {
    var x :| x in shots && x.taken == taken;
    assert x in shots + [shot];
  }

  lemma HasOne(shots: seq<Snapshot>, shot: Snapshot)
    requires shot in shots
    ensures HasSnapshot(shots, shot.taken)
  {}
}

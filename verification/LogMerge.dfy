/** The k-way merge of log files in analyze_logs.py. The heap of `heapq` is the collection of the
    current heads, of which a pop takes one that no other precedes in time. */
module LogMerge {

  type NodeId = int
  type MessageId = int

  /** What the analysis looks at in a line. `Sent` and `Received` stand for all other messages whose
      text starts that way. */
  datatype LogLine =
    | SentMessage(id: MessageId, size: nat)
    | ReceivedMessage(id: MessageId, size: nat)
    | Sent(size: nat)
    | Received(size: nat)
    | Other

  /** `time` is in microseconds since the start of the simulated clock. */
  datatype LogEntry = LogEntry(node: NodeId, time: int, line: LogLine)

  /** An entry together with the file it comes from. */
  datatype Yielded = Yielded(file: nat, entry: LogEntry)

  ghost predicate TimeSorted(s: seq<LogEntry>) {
    forall i, j :: 0 <= i < j < |s| ==> s[i].time <= s[j].time
  }

  function Entries(merged: seq<Yielded>): (s: seq<LogEntry>)
    ensures |s| == |merged| && forall i :: 0 <= i < |s| ==> s[i] == merged[i].entry
  {
    seq(|merged|, i requires 0 <= i < |merged| => merged[i].entry)
  }

  /** The entries that come from one file, in the order in which they were yielded. */
  function FromFile(merged: seq<Yielded>, file: nat): seq<LogEntry> {
    if merged == [] then []
    else FromFile(merged[..|merged| - 1], file) + if merged[|merged| - 1].file == file then [merged[|merged| - 1].entry]
        else []
  }

  lemma FromFileAppend(merged: seq<Yielded>, y: Yielded, file: nat)
    ensures FromFile(merged + [y], file) == FromFile(merged, file) + if y.file == file then [y.entry] else []
  {
    assert (merged + [y])[..|merged|] == merged;
  }

  /** How many entries of the files have not been yielded. */
  function Left(files: seq<seq<LogEntry>>, merged: seq<Yielded>): int {
    if files == [] then 0
    else
      var k := |files| - 1;
      Left(files[..k], merged) + |files[k]| - |FromFile(merged, k)|
  }

  lemma {:induction false} LeftAfter(files: seq<seq<LogEntry>>, merged: seq<Yielded>, y: Yielded)
    ensures Left(files, merged + [y]) == Left(files, merged) - if y.file < |files| then 1 else 0
  {
    if files != [] {
      LeftAfter(files[..|files| - 1], merged, y);
      FromFileAppend(merged, y, |files| - 1);
    }
  }

  lemma {:induction false} LeftNatural(files: seq<seq<LogEntry>>, merged: seq<Yielded>)
    requires forall f: nat :: f < |files| ==> |FromFile(merged, f)| <= |files[f]|
    ensures Left(files, merged) >= 0
  {
    if files != [] {
      var k := |files| - 1;
      assert |FromFile(merged, k)| <= |files[k]|;
      LeftNatural(files[..k], merged);
    }
  }

  /** A file that has a head in the heap has yielded what precedes the head; any other file has
      yielded everything. */
  ghost predicate Merging(files: seq<seq<LogEntry>>, heads: map<nat, nat>, merged: seq<Yielded>) {
    && (forall f :: f in heads ==> f < |files| && heads[f] < |files[f]|)
    && (forall f: nat {:trigger FromFile(merged, f)} :: f < |files| ==>
          FromFile(merged, f) == if f in heads then files[f][..heads[f]] else files[f])
    && (forall y :: y in merged ==> y.file < |files|)
  }

  ghost predicate SortedFiles(files: seq<seq<LogEntry>>) {
    forall f: nat :: f < |files| ==> TimeSorted(files[f])
  }

  /** Nothing in the heap is earlier than anything yielded. */
  ghost predicate HeadsLater(files: seq<seq<LogEntry>>, heads: map<nat, nat>, merged: seq<Yielded>) {
    forall f, i :: f in heads && f < |files| && heads[f] < |files[f]| && 0 <= i < |merged| ==>
        merged[i].entry.time <= files[f][heads[f]].time
  }

  ghost predicate IsMinimum(files: seq<seq<LogEntry>>, heads: map<nat, nat>, f: nat)
    requires forall f :: f in heads ==> f < |files| && heads[f] < |files[f]|
    requires f in heads
  {
    forall g :: g in heads ==> files[f][heads[f]].time <= files[g][heads[g]].time
  }

  /** `heapq.heappop`: some head that no other precedes. The scan keeps the first one it meets; the
      order in which a map is scanned is arbitrary. */
  method PopEarliest(files: seq<seq<LogEntry>>, heads: map<nat, nat>) returns (f: nat)
    requires heads != map[] && forall f :: f in heads ==> f < |files| && heads[f] < |files[f]|
    ensures f in heads && IsMinimum(files, heads, f)
  {
    var left := heads.Keys;
    f :| f in left;
    left := left - {f};
    while left != {}
      invariant left <= heads.Keys && f in heads
      invariant forall g :: g in heads && g !in left ==> files[f][heads[f]].time <= files[g][heads[g]].time
      decreases |left|
    {
      var g :| g in left;
      left := left - {g};
      if files[g][heads[g]].time < files[f][heads[f]].time {
        f := g;
      }
    }
  }

  lemma PopKeeps(files: seq<seq<LogEntry>>, heads: map<nat, nat>, merged: seq<Yielded>, f: nat)
    requires Merging(files, heads, merged) && f in heads
    ensures var y := Yielded(f, files[f][heads[f]]);
            var heads' := if heads[f] + 1 < |files[f]| then heads[f := heads[f] + 1] else heads - {f};
            Merging(files, heads', merged + [y])
  {
    hide FromFile;
    var y := Yielded(f, files[f][heads[f]]);
    var heads' := if heads[f] + 1 < |files[f]| then heads[f := heads[f] + 1] else heads - {f};
    forall g: nat | g < |files|
      ensures FromFile(merged + [y], g) == if g in heads' then files[g][..heads'[g]] else files[g]
    {
      FromFileAppend(merged, y, g);
      assert FromFile(merged, g) == if g in heads then files[g][..heads[g]] else files[g];
      if g == f {
        assert files[f][..heads[f]] + [files[f][heads[f]]] == files[f][..heads[f] + 1];
      } else {
        assert FromFile(merged, g) + [] == FromFile(merged, g);
      }
    }
  }

  lemma PopSorted(files: seq<seq<LogEntry>>, heads: map<nat, nat>, merged: seq<Yielded>, f: nat)
    requires forall g :: g in heads ==> g < |files| && heads[g] < |files[g]|
    requires f in heads && IsMinimum(files, heads, f)
    requires SortedFiles(files) && HeadsLater(files, heads, merged) && TimeSorted(Entries(merged))
    ensures var y := Yielded(f, files[f][heads[f]]);
            var heads' := if heads[f] + 1 < |files[f]| then heads[f := heads[f] + 1] else heads - {f};
            TimeSorted(Entries(merged + [y])) && HeadsLater(files, heads', merged + [y])
  {
    var y := Yielded(f, files[f][heads[f]]);
    var heads' := if heads[f] + 1 < |files[f]| then heads[f := heads[f] + 1] else heads - {f};
    assert TimeSorted(files[f]);
    forall g, i | g in heads' && g < |files| && heads'[g] < |files[g]| && 0 <= i < |merged + [y]|
      ensures (merged + [y])[i].entry.time <= files[g][heads'[g]].time
    {
      assert files[g][heads[g]].time <= files[g][heads'[g]].time;
    }
  }

  /** `parse_log_files`: every line of every file comes out once, those of one file in their order; and
      if every file is in order of time, so is what comes out. */
  method ParseLogFiles(files: seq<seq<LogEntry>>) returns (merged: seq<Yielded>)
    ensures forall f: nat :: f < |files| ==> FromFile(merged, f) == files[f]
    ensures forall y :: y in merged ==> y.file < |files|
    ensures SortedFiles(files) ==> TimeSorted(Entries(merged))
  {
    hide FromFile, Left, IsMinimum, TimeSorted;
    merged := [];
    var heads: map<nat, nat> := map[];
    for i := 0 to |files|
      invariant forall f: nat :: f in heads <==> f < i && files[f] != []
      invariant forall f: nat :: f in heads ==> heads[f] == 0
    {
      if files[i] != [] {
        heads := heads[i := 0];
      }
    }
    StartMerging(files, heads);
    while heads != map[]
      invariant Merging(files, heads, merged)
      invariant SortedFiles(files) ==> TimeSorted(Entries(merged)) && HeadsLater(files, heads, merged)
      decreases Left(files, merged)
    {
      MergingLeft(files, heads, merged);
      var f := PopEarliest(files, heads);
      var at := heads[f];
      var y := Yielded(f, files[f][at]);
      PopKeeps(files, heads, merged, f);
      LeftAfter(files, merged, y);
      if SortedFiles(files) {
        PopSorted(files, heads, merged, f);
      }
      merged := merged + [y];
      heads := if at + 1 < |files[f]| then heads[f := at + 1] else heads - {f};
    }
  }

  lemma StartMerging(files: seq<seq<LogEntry>>, heads: map<nat, nat>)
    requires forall f: nat :: f in heads <==> f < |files| && files[f] != []
    requires forall f: nat :: f in heads ==> heads[f] == 0
    ensures Merging(files, heads, []) && TimeSorted(Entries([])) && HeadsLater(files, heads, [])
  {}

  lemma MergingLeft(files: seq<seq<LogEntry>>, heads: map<nat, nat>, merged: seq<Yielded>)
    requires Merging(files, heads, merged)
    ensures Left(files, merged) >= 0
  {
    hide Left;
    forall f: nat | f < |files|
      ensures |FromFile(merged, f)| <= |files[f]|
    {
      assert FromFile(merged, f) == if f in heads then files[f][..heads[f]] else files[f];
    }
    LeftNatural(files, merged);
  }

  // ---- A permutation ----

  function AllEntries(files: seq<seq<LogEntry>>): multiset<LogEntry> {
    if files == [] then multiset{} else AllEntries(files[..|files| - 1]) + multiset(files[|files| - 1])
  }

  /** Entries of the merge by file, for the first `k` files. */
  function ByFile(merged: seq<Yielded>, k: nat): multiset<LogEntry> {
    if k == 0 then multiset{} else ByFile(merged, k - 1) + multiset(FromFile(merged, k - 1))
  }

  lemma {:induction false} ByFileAppend(merged: seq<Yielded>, y: Yielded, k: nat)
    ensures ByFile(merged + [y], k) == ByFile(merged, k) + if y.file < k then multiset{y.entry} else multiset{}
  {
    hide FromFile;
    if k > 0 {
      ByFileAppend(merged, y, k - 1);
      FromFileAppend(merged, y, k - 1);
    }
  }

  lemma {:induction false} ByFileIsAll(merged: seq<Yielded>, k: nat)
    requires forall y :: y in merged ==> y.file < k
    ensures ByFile(merged, k) == multiset(Entries(merged))
  {
    if merged == [] {
      NothingByFile(k);
    } else {
      var n := |merged| - 1;
      assert merged == merged[..n] + [merged[n]] && merged[n] in merged;
      ByFileIsAll(merged[..n], k);
      ByFileAppend(merged[..n], merged[n], k);
      assert Entries(merged) == Entries(merged[..n]) + [merged[n].entry];
    }
  }

  lemma {:induction false} NothingByFile(k: nat)
    ensures ByFile([], k) == multiset{}
  {
    if k > 0 {
      NothingByFile(k - 1);
    }
  }

  /** What keeps the order of every file is a permutation of all lines. */
  lemma {:induction false} MergeIsPermutation(files: seq<seq<LogEntry>>, merged: seq<Yielded>)
    requires forall f: nat :: f < |files| ==> FromFile(merged, f) == files[f]
    requires forall y :: y in merged ==> y.file < |files|
    ensures multiset(Entries(merged)) == AllEntries(files)
  {
    ByFileIsAll(merged, |files|);
    ByFileIsFiles(files, merged, |files|);
    assert files[..|files|] == files;
  }

  lemma {:induction false} ByFileIsFiles(files: seq<seq<LogEntry>>, merged: seq<Yielded>, k: nat)
    requires k <= |files| && forall f: nat :: f < |files| ==> FromFile(merged, f) == files[f]
    ensures ByFile(merged, k) == AllEntries(files[..k])
  {
    if k > 0 {
      ByFileIsFiles(files, merged, k - 1);
      assert files[..k][..k - 1] == files[..k - 1];
    }
  }
}

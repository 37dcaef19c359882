# The DOG protocol, modelled and proved in Dafny

DOG is a gossip protocol that tunes itself. A node forwards a transaction it sees for the first
time to its peers. It answers a duplicate with HaveTx, upon which the receiver disables the route
from the peer it first got the transaction from to the peer that complained. When the ratio of
duplicates to first-time transactions falls too low, a node asks a peer with ResetRoute to give one
such route back. This project models the implementation in `libp2p-dog/dog` and two of its
experiment scripts, and proves what they keep over all runs.

`dafny verify dfyconfig.toml` checks everything.

## How it is built

| file | what it holds |
|---|---|
| Types | transactions, messages, events, configuration |
| TimeCache, CacheHistory | the duplicate cache as an object, and what it answers told from its calls alone |
| Routing | router and redundancy controller |
| SendQueues, QueueCounter | the send queue call by call, and its counter atomic step by atomic step |
| Nodes, Behaviours, NodeFacts | the entry points of the behaviour as functions, as an object proved against them, and told per peer |
| NodeAnswers, NodeReports, NodeLives | results and events of each call, what a node reports over its life, and its connections |
| ControlBudget | control messages over the life of one node, and when an evaluation asks or unblocks |
| Networks, NetworkRuns, Credit | any number of nodes, their links and runs; the credit invariant |
| FloodSpec, Flood, FloodTheorems | an abstract flood, the network as an instance of it, tree and HaveTx theorems |
| FixedTopology, FloodEnd | copy bound, and the measure by which a flood ends |
| FloodDelivery, Withholding, Delivery, Unhindered | books on every copy, why copies are withheld or lost, delivery, and settings under which nothing stands in its way |
| TransactionIds, OwnPublishes | default ids, and why a node's own publications are never duplicates |
| Lifetimes | the theorems on floods for single transactions in runs of any length |
| HonestNetworks | networks that meet the hypotheses of these theorems |
| Protocol | conversions, decoding, signing and authenticity |
| Handlers, HandlerRuns | the connection handler and its life: what becomes of each message |
| HandlerTimes, HandlerHistories | when a handler sends, drops, asks and answers, and what it makes of what it hears |
| HandlerLinks | the steps of the network a handler takes |
| Meshes, Scripts, ScriptRuns, ScriptOrder | random mesh and script scheduler of `experiment.py`; what scripts publish and when they are in order |
| LogMerge, LogTotals | merge and accumulation of `analyze_logs.py` |

Objects that the source updates in place are classes whose methods are proved to reach the state a
function on values describes; the theorems are about these functions.

## What is assumed

- The clock, every random choice, the order in which a hash map is iterated, and what sinks, sources
  and the network answer are parameters. The clock does not run back.
- Two peers have one connection, both ends lose it in one step, and a handler hands messages only to
  a behaviour that is connected to the sender.
- The swarm answers each outbound substream request once, and no message is enqueued during one poll
  of the handler.
- Redundancy is an exact real number; the target redundancy is not negative where that matters
  (`ControlBudget`).
- "Honest" nodes share one id function and data transforms that undo each other. The flood theorems are
  about the transactions that are watched, any set of them, and ask that no cache entry for one of
  these expires before the end of the run; other entries may. `Lifetimes` has them for each single
  transaction from its first filing until it may be forgotten, however long the network has run. Where
  they say so they ask that equal ids mean equal authors among the nodes of the network and that the
  graph stays as it is. `HonestNetworks.HypothesesCanBeMet` shows networks of every size that meet all
  this.
- Keys, signatures and encodings obey the laws of `Protocol.Lawful`; the theorems on authenticity add
  `Protocol.Unforgeable`. `Protocol.LawsCanBeMet` shows that both can be met.
- Atomic operations on the queue counter are sequentially consistent.
- Queue lengths are at least 2 and a queue is open while its peer is connected. The theorems on
  delivery ask that nodes look at the transactions of an RPC at all (`max_transactions_per_rpc` is
  not 0).

## Where code and comments differ

The model follows the code in each case.

- `poll_is_empty` says it is true if both queues are empty; it is true only once both are closed and
  drained, so that an idle handler asks for a substream at once (`SendQueues.PollIsEmpty`).
- The receiver of a handler that is disabled goes with the messages in its peek slots, control messages
  among them; a message waiting for the sink goes, too. `HandlerRuns.FiveClassesIff` has the exact
  condition, `HandlerRuns.PeekedMessageVanishes` an input.
- `poll_stale` drops a Publish without lowering the counter, and the counter's load and store lose a
  subtraction in between. What leaks is never given back: `QueueCounter.ExactIffNothingLeaks` has the
  exact condition, `QueueCounter.StaleDropBlocksForEver` a queue that is empty and refuses for ever.
- A phase is recorded with all its messages, but laid for the nodes that are active when it is applied, and
  at the time at which it is applied: `ScriptRuns.LeaversAreSilent` and
  `ScriptOrder.OpenTogetherStepBack` have inputs, `ScriptRuns.ScriptsPublishTheRecord` and
  `ScriptOrder.ScriptsInOrder` the exact conditions.
- `contains` and `get` of the cache do not purge: an expired id still makes a publication a duplicate
  and still lets a HaveTx disable a route (`CacheHistory.LookupSeesLastInsertion`).
- A publication that nobody takes stays in the cache and has used up its sequence number.
- Several ResetRoute in one RPC give back one route.
- `have_tx_sent_per_peer` survives a disconnect, so that an adjustment may choose a peer that is gone;
  the message is then not sent and the credit stays.
- The comment on `SequenceNumber` speaks of milliseconds; the code takes nanoseconds.
- Default ids put author and number side by side without a separator: authors with texts of different
  lengths can share an id (`TransactionIds.CollisionsExactly`).

## Model

| member | source | states |
|---|---|---|
| TimeCache.DuplicateCache.constructor | libp2p-dog/dog/src/time_cache.rs:26-33 | a new cache is empty and its list, map and length agree |
| TimeCache.DuplicateCache.RemoveExpiredValues | libp2p-dog/dog/src/time_cache.rs:35-44 | pops exactly the expired entries at the front of the list; list, map and length keep agreeing, so the length never underflows |
| TimeCache.DuplicateCache.Insert | libp2p-dog/dog/src/time_cache.rs:46-61 | purges, then adds a key that is not there; a duplicate changes neither value nor expiry |
| TimeCache.DuplicateCache.Contains | libp2p-dog/dog/src/time_cache.rs:63-65 | looks a key up without purging |
| TimeCache.DuplicateCache.Get | libp2p-dog/dog/src/time_cache.rs:67-69 | returns the stored value without purging |
| CacheHistory.CacheAgreesWithHistory | libp2p-dog/dog/src/time_cache.rs:35-61 | for a clock that never runs back, an insertion is told "new" if and only if no earlier insertion told "new" for the key still has time to live |
| CacheHistory.LookupSeesLastInsertion | libp2p-dog/dog/src/time_cache.rs:63-69 | look-ups answer for the time of the last insertion, not for the present, with the value the key was added with |
| Routing.Router.EnableRandomRouteToPeer | libp2p-dog/dog/src/dog.rs:55-66 | the object removes one of the entries that lead to the peer, at the position chosen |
| Routing.Router.ResetRoutesWithPeer | libp2p-dog/dog/src/dog.rs:68-79 | the object splits its list into what mentions the peer and what does not |
| Routing.Router.FilterValidRoutes | libp2p-dog/dog/src/dog.rs:81-91 | the object returns the targets that no disabled route from the source leads to |
| Routing.Router.RegisterHaveTxSent | libp2p-dog/dog/src/dog.rs:93-96 | raises the credit of one peer by one, starting from zero |
| Routing.Router.RemoveHaveTxSent | libp2p-dog/dog/src/dog.rs:106-112 | lowers a positive credit by one |
| Routing.EnableRemovesOne | libp2p-dog/dog/src/dog.rs:55-66 | a reset gives back exactly one occurrence of one route to the peer if and only if there is one; every other occurrence stays |
| Routing.AnyRouteMayComeBack | libp2p-dog/dog/src/dog.rs:55-66 | for every place of a route to the peer there is an outcome of the random choice by which that route comes back, every other one keeping its place |
| Routing.SomeRouteComesBack | libp2p-dog/dog/src/dog.rs:55-66 | and there is no other outcome while some route leads to the peer |
| Routing.ResetsOpenEveryRoute | libp2p-dog/dog/src/dog.rs:55-66 | whatever the random choices, the peer is a valid target from every source exactly when there have been as many resets as entries leading to it |
| Routing.DisconnectPartitions | libp2p-dog/dog/src/dog.rs:68-79 | a disconnect loses and makes no entry, removes those that mention the peer and leaves none of them |
| Routing.DisconnectIsStable | libp2p-dog/dog/src/dog.rs:68-79 | what is removed and what is left keep their order |
| Routing.RunRefines | libp2p-dog/dog/src/dog.rs:51-79 | over any run the list is a faithful picture of a multiset that gains one route per HaveTx, loses one per reset that finds one, and loses what mentions a lost peer |
| Routing.FilterKeepsOrder | libp2p-dog/dog/src/dog.rs:81-91 | filtering distributes over concatenation, so that it keeps order and repetition |
| Routing.FilterBySupport | libp2p-dog/dog/src/dog.rs:81-91 | filtering depends on the multiset of disabled routes only |
| Routing.EvaluateMeans | libp2p-dog/dog/src/dog.rs:153-179 | the hysteresis in cross-multiplied form: a route is asked for below the lower bound, HaveTx is unblocked above the upper one, a period without a first-time transaction does neither |
| Routing.Controller.EvaluateRedundancy | libp2p-dog/dog/src/dog.rs:163-179 | the object decides as the specification does and changes its blocking flag only |
| SendQueues.SharedQueue.SendTransaction | libp2p-dog/dog/src/rpc.rs:56-71 | a full counter refuses a Publish, a full channel a Forward, only a closed channel a control message |
| SendQueues.SharedQueue.Next | libp2p-dog/dog/src/rpc.rs:145-156 | takes the head of the priority channel, else of the other one; a Publish lowers the counter, which is positive then |
| SendQueues.SharedQueue.Stale | libp2p-dog/dog/src/rpc.rs:93-128 | looks at the heads of both channels, drops one whose time is up and leaves the counter alone |
| SendQueues.SharedQueue.IsEmpty | libp2p-dog/dog/src/rpc.rs:131-139 | true only once the channels are closed and drained; the heads are in the peek slots afterwards |
| SendQueues.SharedQueue.DropReceiver | libp2p-dog/dog/src/rpc.rs:81-88 | a receiver that is dropped takes exactly the heads it has peeked with it, the order of the rest and the counter stay |
| SendQueues.PollNextValid | libp2p-dog/dog/src/rpc.rs:145-156 | the counter never underflows; a Forward comes out only if no priority message is queued; a closed queue ends once its priority channel is drained, whatever the other one holds, and an open one never ends |
| QueueCounter.CounterIsExact | libp2p-dog/dog/src/rpc.rs:56-71 | under every interleaving of one sender with any number of receivers, which may be dropped, the counter is what is queued, taken but not subtracted, or stored but not enqueued, plus what has leaked; it stays within the bound and no subtraction wraps around |
| QueueCounter.ExactIffNothingLeaks | libp2p-dog/dog/src/rpc.rs:56-156 | the counter counts exactly what is outstanding if and only if no stale Publish was dropped, nothing was subtracted between a load and its store, nothing counted met a closed channel, and no receiver was dropped that held a Publish |
| QueueCounter.StoreLeaksIffInterrupted | libp2p-dog/dog/src/rpc.rs:58-62 | a store leaks in a run if and only if some subtraction lies between its load and it |
| QueueCounter.LeaksIffGoesWrong | libp2p-dog/dog/src/rpc.rs:56-156 | each step leaks if and only if it is one of those four events |
| QueueCounter.LeaksAreForEver | libp2p-dog/dog/src/rpc.rs:56-63 | a Publish is refused if and only if what is outstanding and what has leaked fill the bound; leaks never come back |
| QueueCounter.StaleDropBlocksForEver | libp2p-dog/dog/src/rpc.rs:93-107 | a queue with room for one Publish that lets one go stale is empty and refuses every later one |
| QueueCounter.LostSubtraction | libp2p-dog/dog/src/rpc.rs:58-62 | a subtraction between load and store is lost for good |
| QueueCounter.UninterruptedSend | libp2p-dog/dog/src/rpc.rs:56-71 | the atomic steps of a send run without interruption are the send of the sequential model |
| QueueCounter.UninterruptedTake | libp2p-dog/dog/src/rpc.rs:145-156 | likewise for taking the next message |
| QueueCounter.UninterruptedStale | libp2p-dog/dog/src/rpc.rs:93-107 | likewise for dropping a stale Publish |
| QueueCounter.UninterruptedDrop | libp2p-dog/dog/src/rpc.rs:81-88 | likewise for dropping a receiver |
| Behaviours.Behaviour.BuildRawTransaction | libp2p-dog/dog/src/behaviour.rs:313-352 | takes the next sequence number, also when signing fails |
| Behaviours.Behaviour.PublishTransaction | libp2p-dog/dog/src/behaviour.rs:238-311 | the object reaches the state, events and result of the specification, of which NodeAnswers.PublishAnswers says when each result is given, and NodeFacts.PublishFacts what is filed and sent |
| Behaviours.Behaviour.SendToAll | libp2p-dog/dog/src/behaviour.rs:276-294 | offers a message to the recipients one after the other and reports those that take it |
| Behaviours.Behaviour.ForwardToPeers | libp2p-dog/dog/src/behaviour.rs:391-438 | forwards to the valid routes from the propagation source, never to the source or the author |
| Behaviours.Behaviour.HandleReceivedTransaction | libp2p-dog/dog/src/behaviour.rs:486-564 | first-time transactions are counted and forwarded, duplicates counted and answered by one HaveTx unless blocked; NodeAnswers.ReceiveTells has the events |
| Behaviours.Behaviour.HandleHaveTx | libp2p-dog/dog/src/behaviour.rs:577-603 | disables the route from the cached source of every id to the sender, except where the sender is that source |
| Behaviours.Behaviour.HandleResetRoute | libp2p-dog/dog/src/behaviour.rs:605-630 | gives one route back and reports the routes if there was one |
| Behaviours.Behaviour.OnRpc | libp2p-dog/dog/src/behaviour.rs:728-769 | transactions first, up to the permitted number, then all HaveTx together, then one reset however many were asked for |
| Behaviours.Behaviour.AdjustTheRedundancy | libp2p-dog/dog/src/behaviour.rs:632-667 | asks one creditor for a route if redundancy is too low, by the condition of ControlBudget.RedundancyGoesByTheTarget, moves the credit only if the message is taken, and always clears the counters |
| Behaviours.Behaviour.OnConnectionEstablished | libp2p-dog/dog/src/behaviour.rs:677-719 | the first connection to a peer makes its queue, later ones share it |
| Behaviours.Behaviour.OnConnectionClosed | libp2p-dog/dog/src/behaviour.rs:451-484 | the last connection takes the queue and the routes that mention the peer with it, then redundancy is adjusted |
| NodeFacts.PublishFacts | libp2p-dog/dog/src/behaviour.rs:238-311 | a publication that is not new touches neither cache nor peers; a new one is filed under the node itself and goes exactly to peers with a valid route and room, everybody else being passed over for a reason that holds |
| NodeFacts.ForwardFacts | libp2p-dog/dog/src/behaviour.rs:391-438 | what is forwarded goes to neither source nor author, and whoever is passed over has a disabled route or a full queue |
| NodeFacts.ReceiveFacts | libp2p-dog/dog/src/behaviour.rs:486-564 | receiving a transaction books a HaveTx in the credit of exactly the peer that takes it and leaves the disabled routes alone |
| NodeFacts.AdjustFacts | libp2p-dog/dog/src/behaviour.rs:632-667 | an adjustment lowers exactly the credit of the peer that takes the ResetRoute |
| NodeAnswers.BuiltMeans | libp2p-dog/dog/src/behaviour.rs:313-352 | a transaction is built if and only if the data fits, a number is left and signing succeeds; it names the node, the next number and the transformed data, with signature and key only if the node signs |
| NodeAnswers.PublishAnswers | libp2p-dog/dog/src/behaviour.rs:238-311 | each result of publish is given if and only if it should be: success exactly when the id is new and some peer takes the transaction, AllQueuesFull exactly when there is a valid target and none takes it, InsufficientPeers exactly when there is none, and each error for its own cause; TransactionSent names exactly the peers that took it, in order; a number is used up by every call that gets as far as taking one |
| NodeAnswers.ReceiveTells | libp2p-dog/dog/src/behaviour.rs:486-564 | a transaction that passes the transform is reported with the peer it came from, its id and its content, followed by the peers it was forwarded to or the HaveTx it was answered with |
| NodeReports.RpcReports | libp2p-dog/dog/src/behaviour.rs:721-769 | what an RPC is reported as: one event for each transaction within the limit that passes the transform, one for each HaveTx unless they are ignored, one for its resets, in this order and all with the sending peer; the routes it leaves disabled are those last reported |
| NodeReports.ReportsWhatArrives | libp2p-dog/dog/src/behaviour.rs:486-630 | over any life of a node the transactions, HaveTx and resets it reports are, in order, exactly those that arrived, each with the peer it came from; and its disabled routes are those it last reported |
| NodeReports.CloseReports | libp2p-dog/dog/src/behaviour.rs:451-484 | closing the last connection reports the routes if and only if some mentioned the peer; closing another one reports nothing |
| NodeLives.RpcIsItsMessages | libp2p-dog/dog/src/behaviour.rs:721-769 | an RPC does to a node what its messages do one by one: the permitted transactions, every HaveTx, and a single reset |
| NodeLives.CutsComeLast | libp2p-dog/dog/src/behaviour.rs:577-592 | the routes cut by HaveTx go to the end of the list, one for each id cached with another source, in the order of the messages |
| NodeLives.ConnectingMeans | libp2p-dog/dog/src/behaviour.rs:677-719 | a further connection leaves the queue of the peer alone, the first one gives it a new queue, and no other peer is touched |
| NodeLives.WithoutMeans | libp2p-dog/dog/src/behaviour.rs:460-463 | closing a connection takes exactly its occurrences from the list |
| NodeLives.ConnectionsAreOpen | libp2p-dog/dog/src/behaviour.rs:440-719 | over any life the connected peers are those with an open connection, each with its open connections in order |
| ControlBudget.ControlMessagesAreBudgeted | libp2p-dog/dog/src/behaviour.rs:509-552 | over any life of a node the credit for a peer is HaveTx sent minus ResetRoute sent; HaveTx number at most one more than the evaluations that found too many duplicates, ResetRoute at most those that found too few, by target and percentage of the configuration; and an evaluation judges exactly the first-time and duplicate transactions reported since the last one |
| ControlBudget.RedundancyGoesByTheTarget | libp2p-dog/dog/src/dog.rs:123-179 | over any life an adjustment offers the chosen creditor a reset if and only if the duplicates since the last one, times 100, are fewer than the target times (100 - percent) for each first-time transaction, and unblocks HaveTx if and only if they are more than the target times (100 + percent); a period without a first-time transaction does neither |
| ControlBudget.ZeroGuardNeverNeeded | libp2p-dog/dog/src/dog.rs:106-112 | the credit is positive whenever it is lowered |
| NetworkRuns.DoValid | libp2p-dog/dog/src/behaviour.rs:670-822 | every step of the network keeps caches consistent, queues valid and connections mutual |
| Credit.CreditCoversDisabledRoutes | libp2p-dog/dog/src/behaviour.rs:535-536 | in every run that loses no ResetRoute, neither on the wire nor with a disabled handler, with churn and expiry, the routes disabled for a node, run through the messages still on their way, never exceed the credit the node keeps |
| Credit.NobodyToAskMeansNothingDisabled | libp2p-dog/dog/src/behaviour.rs:637-658 | a node that finds nobody to ask while none of its control messages is on its way has no route to it disabled at that neighbour |
| Credit.DisabledRoutesLeadToPeers | libp2p-dog/dog/src/behaviour.rs:464-477 | in every run every disabled route leads to a connected peer other than its source, so that a peer that is not connected is a valid target |
| Withholding.WithheldForCause | libp2p-dog/dog/src/behaviour.rs:391-434 | a copy on the record of the withheld was withheld at a step that takes the transaction up, which was not filed before, from the source then filed, and for a reason true at that step: the route from that source is disabled, the queue refuses, or the node does not forward |
| FloodSpec.QuietKeeps | libp2p-dog/dog/src/behaviour.rs:516-548 | steps that teach nobody a watched transaction keep the invariant of the flood |
| FloodSpec.LearnsKeeps | libp2p-dog/dog/src/behaviour.rs:399-434 | a node that takes a watched transaction up and passes it on keeps the invariant of the flood |
| FloodRefinement.RunFlood | libp2p-dog/dog/src/behaviour.rs:257-294 | every reachable state of a network of honest nodes, with churn and losses, satisfies that invariant for all transactions watched, as long as no entry for one of them expires |
| FloodTheorems.FirstDeliveryTree | libp2p-dog/dog/src/behaviour.rs:516-564 | from any holder of a watched transaction, following cached sources visits holders only, none twice, over links that carried exactly one copy, and ends at an author of the transaction, the only one among the nodes |
| FloodTheorems.HaveTxCutsOneRouteAndNoTreeEdge | libp2p-dog/dog/src/behaviour.rs:577-592 | a HaveTx for a watched transaction joins two holders neither of which has the other as its source: the self-source guard never fires and no tree edge of that transaction is cut |
| FloodTheorems.CopiesAreLinks | libp2p-dog/dog/src/behaviour.rs:271-294 | every link carries at most one copy of a transaction |
| FixedTopology.CopyBound | libp2p-dog/dog/src/behaviour.rs:399-434 | on a fixed graph with E edges and R holders of a watched transaction, at least R - 1 and at most 2E - (R - 1) copies have been accepted |
| FloodEnd.FloodEnds | libp2p-dog/dog/src/behaviour.rs:486-564 | what remains of a flood, twice the edges less the copies accepted plus the links with one under way, is never negative nor below R - 1, no step raises it and every arrival lowers it, so that arrivals over a run never exceed twice the edges less what remains |
| FloodEnd.OneArrivalPerLink | libp2p-dog/dog/src/behaviour.rs:486-564 | no link delivers a transaction twice |
| Delivery.LossForCause | libp2p-dog/dog/src/rpc.rs:93-128 | a copy on the record of the lost was dropped at a step of its handler or wire that left one copy less on its link and handed none over |
| Delivery.DeliveryAtQuiescence | libp2p-dog/dog/src/behaviour.rs:399-434 | when no copy is on its way from a holder to a neighbour, that neighbour holds the transaction, or at the step at which the holder took it up, from the source it still has filed, it skipped the neighbour for a reason true then, or a copy was dropped at some step |
| Delivery.DeliveredOrDisabled | libp2p-dog/dog/src/dog.rs:81-91 | if all forward, no queue is ever full and nothing is dropped, a quiet neighbour of a holder holds the transaction or the route from the filed source to it was disabled at the step at which the holder took it up |
| Delivery.EverybodyReached | libp2p-dog/dog/src/dog.rs:81-91 | if besides no route is disabled in any state of the run, every node connected to the author of a transaction that anybody holds holds it, once nothing of it is on its way |
| Unhindered.UncutRunDisablesNothing | libp2p-dog/dog/src/behaviour.rs:577-603 | on a fixed graph where nobody sends HaveTx, or everybody ignores it, no route is disabled in any state of a run |
| Unhindered.RoomyRunRefusesNobody | libp2p-dog/dog/src/rpc.rs:56-71 | on a fixed graph with queues longer than twice the run no queue is ever full |
| Unhindered.LosslessRunDropsNothing | libp2p-dog/dog/src/rpc.rs:93-128 | in an honest run on a fixed graph, where deadlines lie beyond its end and neither wires nor handlers fail no copy is dropped |
| Unhindered.SettingsReachEverybody | libp2p-dog/dog/src/behaviour.rs:399-434 | under those three conditions, which can be read off settings and steps, every node connected to the author holds the transaction once nothing of it is on its way |
| OwnPublishes.NeverADuplicate | libp2p-dog/dog/src/behaviour.rs:255-260 | with default ids over texts of one length that tell the nodes of the network apart, no run of honest nodes, with churn, expiry and loss, makes a node refuse its own publication as a duplicate |
| OwnPublishes.DefaultIdsNameAuthors | libp2p-dog/dog/src/config.rs:137-142 | default ids over texts of one length name the author among known peers |
| HonestNetworks.HypothesesCanBeMet | libp2p-dog/dog/src/config.rs:137-142 | for every finite set of peers, horizon and length of runs there are default ids and a network that meet the hypotheses of the theorems on floods, delivery and own publications |
| Lifetimes.TreeWithinLifetime | libp2p-dog/dog/src/time_cache.rs:35-61 | the tree of first deliveries for each single transaction in runs of any length: it holds in every state whose clock is within the cache time of the first filing |
| Lifetimes.HaveTxWithinLifetime | libp2p-dog/dog/src/behaviour.rs:577-592 | the same for the HaveTx messages of a transaction |
| Lifetimes.CopiesWithinLifetime | libp2p-dog/dog/src/behaviour.rs:399-434 | the same for the bounds on its copies |
| Lifetimes.ArrivalsWithinLifetime | libp2p-dog/dog/src/behaviour.rs:486-564 | the same for its arrivals: at most 2E - (R - 1) over the whole run |
| Lifetimes.DeliveryWithinLifetime | libp2p-dog/dog/src/behaviour.rs:399-434 | the same for its delivery once nothing of it is on its way |
| Lifetimes.ShortRunIsHonest | libp2p-dog/dog/src/time_cache.rs:35-61 | a run that ends before any cache can forget anything meets the hypothesis for all transactions at once |
| TransactionIds.DefaultIdIsInjective | libp2p-dog/dog/src/config.rs:137-142 | for author texts of equal length the id determines author and sequence number |
| TransactionIds.CollisionsExactly | libp2p-dog/dog/src/config.rs:137-142 | a shorter and a longer text share an id for some 64-bit numbers if and only if the longer is the shorter followed by a decimal without leading zero that fits with one more digit |
| TransactionIds.ValueOfDecimal | libp2p-dog/dog/src/config.rs:140 | a printed number reads back as itself |
| TransactionIds.DecimalOfValue | libp2p-dog/dog/src/config.rs:140 | digits without a leading zero print back as themselves |
| Protocol.Decode | libp2p-dog/dog/src/protocol.rs:164-276 | the loop over an RPC yields the accepted transactions, the refused ones with the error of each, and the control messages |
| Protocol.DecodeSplits | libp2p-dog/dog/src/protocol.rs:169-247 | accepted and refused stand at increasing places that together are all places: nothing is reordered, lost or made |
| Protocol.DecodeAcceptsExactly | libp2p-dog/dog/src/protocol.rs:172-247 | a transaction is accepted if and only if its author parses, whatever the mode, and in strict mode its signature verifies; otherwise it is refused with the error that applies, with a random author only if its own does not parse; number, data, signature and key are those on the wire |
| Protocol.TransactionRoundTrip | libp2p-dog/dog/src/types.rs:69-85 | a transaction comes back as it was if and only if no field is present and empty and, in strict mode, its signature is verified |
| Protocol.OutRoundTrip | libp2p-dog/dog/src/types.rs:191-217 | a queued message decodes to the RPC the network model hands over, with nothing refused |
| Protocol.RpcRoundTrip | libp2p-dog/dog/src/types.rs:252-277 | a whole RPC keeps its transactions, and its control messages up to HaveTx before ResetRoute |
| Protocol.SortedTwice | libp2p-dog/dog/src/protocol.rs:249-268 | sorting the control messages keeps the order within each kind and is idempotent |
| Protocol.SignedVerifies | libp2p-dog/dog/src/behaviour.rs:313-352 | what a signing author builds passes the check, with the key carried exactly if it is longer than 42 bytes and else taken from the peer id |
| Protocol.AcceptedAtAnyHop | libp2p-dog/dog/src/behaviour.rs:418-426 | a signed transaction arrives unchanged after any number of hops, whatever each of them validates |
| Protocol.PublishedAcceptedAtAnyHop | libp2p-dog/dog/src/behaviour.rs:238-255 | the same for what a signing node publishes |
| Protocol.UnsignedRefusedWhenStrict | libp2p-dog/dog/src/protocol.rs:208-231 | an unsigned transaction is refused with an invalid signature in strict mode |
| Protocol.CarriedKeyAgrees | libp2p-dog/dog/src/protocol.rs:116-125 | an author whose key fits the peer id may carry it or leave it out: the check comes to the same |
| Protocol.OneAuthorPerKey | libp2p-dog/dog/src/protocol.rs:116-130 | transactions that carry the same key are accepted for one author at most |
| Protocol.AcceptedIsAuthentic | libp2p-dog/dog/src/protocol.rs:105-144 | if signatures cannot be forged, what strict mode accepts was published by the author it names, with that number and that data |
| Protocol.OneStrictHopSuffices | libp2p-dog/dog/src/protocol.rs:208-231 | author, number and data survive any number of hops, and a chain with one strict hop anywhere lets through nothing its author did not publish |
| Protocol.LawsCanBeMet | libp2p-dog/dog/src/protocol.rs:105-144 | whatever is published there is a scheme of keys and signatures that meets the laws and the assumption on forgery and lets every author sign just that |
| Handlers.EnabledOrDisabledHandler.DriveOutbound | libp2p-dog/dog/src/handler.rs:168-259 | the outbound loop ends by a measure on queue and state, never meets the poisoned state and reaches the specified state; HandlerTimes and HandlerHistories say what that is |
| Handlers.EnabledOrDisabledHandler.DriveInbound | libp2p-dog/dog/src/handler.rs:261-316 | the inbound loop ends, never meets the poisoned state and reaches the specified state, with what it has heard on record; HandlerHistories.HandlerDoesWhatItHears says what it makes of that |
| Handlers.EnabledOrDisabledHandler.Poll | libp2p-dog/dog/src/handler.rs:148-325 | one poll asks for a substream, or drives both sides and drops one stale message, as specified |
| Handlers.EnabledOrDisabledHandler.OnConnectionEvent | libp2p-dog/dog/src/handler.rs:368-437 | a connection event has the specified effect: a handler that is disabled drops the message waiting to be sent and, with its receiver, what that has peeked; the assertion against a second outbound substream holds |
| HandlerRuns.NothingIsLostTrackOf | libp2p-dog/dog/src/handler.rs:148-437 | over any life of a handler every accepted message is exactly one of queued, waiting, given to the sink, lost to a sink error, reported as dropped, or dropped with the handler when that was disabled; each channel lets its messages go in order; a Forward is taken to be sent only with no priority message queued |
| HandlerRuns.FiveClassesIff | libp2p-dog/dog/src/handler.rs:368-437 | the first five classes are all there is if and only if the handler was never disabled while it had peeked at a message or had one waiting |
| HandlerRuns.PeekedMessageVanishes | libp2p-dog/dog/src/handler.rs:158-166 | a HaveTx that was accepted and peeked at by one poll is in none of the five classes once negotiation fails |
| HandlerRuns.AtMostFiveRequests | libp2p-dog/dog/src/handler.rs:158-166 | over any life nothing is left poisoned, establishing means no outbound substream, requests are attempts plus the one open, and there are at most five |
| HandlerRuns.ControlNeverRefused | libp2p-dog/dog/src/rpc.rs:64-70 | over any life of a connected handler a control message is accepted |
| HandlerTimes.LeavesOnTime | libp2p-dog/dog/src/handler.rs:173-206 | over any life a message leaves the queue at a poll to be sent if and only if it is a control message or its deadline lies after that poll, and is dropped if and only if it is a transaction whose deadline has passed; outside polls messages leave only when the handler is disabled |
| HandlerTimes.EveryFateIsRight | libp2p-dog/dog/src/handler.rs:173-206 | over any life every message that was sent had time left or no deadline, every dropped one had none left, and no control message is ever reported as dropped |
| HandlerTimes.PollMeans | libp2p-dog/dog/src/handler.rs:148-325 | one poll of an enabled handler: the outbound side rests only on an empty queue, a sink that is not ready or a missing substream; an RPC that is read is handed over unless the poll has left before; and there is nothing to tell only if no channel is headed by a transaction whose time is up |
| HandlerTimes.AsksIff | libp2p-dog/dog/src/handler.rs:158-166 | a poll asks for a substream if and only if the handler is enabled, has none, establishes none and its queue is not closed and drained, and then only peeks |
| HandlerTimes.StaleMeans | libp2p-dog/dog/src/rpc.rs:93-128 | a head is dropped as stale if and only if it is a transaction whose time is up, the priority channel first; the counter and the rest stay, and the stream ends only when both channels show a transaction in time or are closed and drained |
| HandlerTimes.AcceptedIff | libp2p-dog/dog/src/rpc.rs:56-71 | over any life a Publish is accepted if and only if those accepted and not yet taken in turn are fewer than half the configured length, a Forward if and only if fewer are in its channel, a peeked one not counted, a control message always |
| HandlerHistories.HandlerDoesWhatItHears | libp2p-dog/dog/src/handler.rs:206-316 | over any life the behaviour is handed, in order, exactly the RPCs that were read; the inbound substream closes only on an error or the end and goes only when closed or disabled; the outbound substream and the fate of each message taken up follow from the answers of the sink |
| HandlerHistories.PollListens | libp2p-dog/dog/src/handler.rs:206-316 | a poll takes the answers of the sink in their order, none twice and none left out, and reads the source unless it has left before |
| HandlerHistories.OneAtATime | libp2p-dog/dog/src/handler.rs:206-250 | over any life a message is taken up only on a fresh substream or once the one before was given to the sink and flushed |
| HandlerHistories.EnabledIff | libp2p-dog/dog/src/handler.rs:368-437 | over any life a handler is enabled if and only if it has seen fewer than five inbound and fewer than five outbound substream events and never that the protocol is unsupported, which also tells the way it was disabled; every negotiated substream but one that disables is opened |
| HandlerLinks.PollIsSteps | libp2p-dog/dog/src/handler.rs:148-325 | one poll of the handler at a link does to queue, wire and losses what a run of the network steps for that link does: peek, transmissions of the messages taken, stale drops |
| HandlerLinks.EventIsSteps | libp2p-dog/dog/src/handler.rs:368-437 | a disabling event is a run of dropped peeked heads, any other event no step at all |
| Meshes.RandomMeshConnections | experiment.py:190-201 | returns a symmetric, irreflexive mesh in which every edge is dialled exactly once and every node has dialled until it had the degree asked for, and nobody if it had that before; the drawing loop ends |
| Meshes.NeverThatMany | experiment.py:194 | no node can have as many connections as there are nodes, so that the loop needs more nodes than connections |
| Scripts.ExperimentPhase.Add | experiment.py:87-111 | adds one message to an open phase, or refuses a node that was not active |
| Scripts.ExperimentDriver.ActivateNode | experiment.py:134-137 | moves a node from the ready to the active ones, or refuses one that is not ready |
| Scripts.ExperimentDriver.DeactivateNode | experiment.py:142-144 | removes a node from the active ones, or refuses one that is not active |
| Scripts.ExperimentDriver.ApplyPhase | experiment.py:113-125 | lays the main phase and a closing instruction behind the script of every active node |
| Scripts.ExperimentDriver.Setup | experiment.py:149-159 | appends a connect instruction at the present time, or refuses inactive peers |
| Scripts.ExperimentDriver.FinalSeconds | experiment.py:167-172 | the time of the latest closing instruction, rounded up to seconds |
| ScriptRuns.ActivatesInOrder | experiment.py:134-140 | a list of nodes can be activated if and only if all are ready, each as often as it is listed, and they then stand behind the active ones in the order of the list |
| ScriptRuns.EveryIdOnce | experiment.py:87-110 | after any operations every id below the next one belongs to exactly one message of one phase |
| ScriptRuns.ScriptsPublishTheRecord | experiment.py:87-125 | after any operations the scripts publish exactly the messages on record, each by its source at its time, if and only if no phase was applied that had a message from a node no longer active and no message was added to a phase that had been applied |
| ScriptRuns.LeaversAreSilent | experiment.py:113-125 | a node that is deactivated before its phase is applied is on record with its message and has an empty script |
| ScriptOrder.ScriptsInOrder | experiment.py:113-159 | after any operations every script is in order of time if and only if no operation laid something that is out of order or before the last instruction of its script |
| ScriptOrder.OpenTogetherStepBack | experiment.py:113-125 | of two phases that are open together the one applied last lays its messages before the end of the other |
| ScriptOrder.ScriptsAreSound | experiment.py:87-125 | in a run with one phase open at a time, no node deactivated meanwhile and no time negative, once all phases are applied, every script is in order of time, messages are numbered 0, 1, 2 and so on, and each is published once, at its own time, by its source alone |
| ScriptOrder.FinalTimeCovers | experiment.py:167-172 | the final time is less than a second later than some instruction, and covers every instruction if no operation laid something too early |
| LogMerge.ParseLogFiles | analyze_logs.py:120-160 | every line of every file comes out once, those of one file in order; sorted files give a sorted result |
| LogMerge.PopEarliest | analyze_logs.py:156-157 | the popped head is one that no other precedes |
| LogMerge.MergeIsPermutation | analyze_logs.py:120-160 | what keeps every file whole and in order is a permutation of all lines |
| LogTotals.LogProcessor.Enter | analyze_logs.py:184-212 | one line moves the accumulators to the totals and first times of the longer log |
| LogTotals.LogProcessor.ProcessLogs | analyze_logs.py:163-219 | totals, first send and first delivery are those of the whole log; a snapshot is taken exactly at each entry that opens a five-second window and shows the totals up to it; one more at the end shows everything |
| LogTotals.TotalIsSum | analyze_logs.py:184-212 | each total is the sum of the sizes in the lines of its kind, and every line with a size is of one kind |
| LogTotals.DeliveryIsEarliest | analyze_logs.py:72-74 | in a sorted log the recorded delivery is the earliest send or receive entry of the node, and there is one if and only if there is such an entry |
| LogTotals.WindowsDiffer | analyze_logs.py:214-217 | snapshots at entries fall in different windows, in order |
| LogTotals.OpensWindowWhenSorted | analyze_logs.py:214-217 | in a sorted log the entries with a snapshot are the first of their windows of five seconds, from five seconds on |
| LogTotals.LogProcessor.MessagesTellTheLog | analyze_logs.py:221-228 | a message is written if and only if it was sent, with source and time of its earliest sending, and each node with the earliest time it had it |

## Left out

- libp2p transport, swarm, dialing, both mains, metrics, error printing, alerts, plotting and
  `go-libp2p`: library plumbing, configuration and logging.
- Protobuf wire bytes, framing and its size limit: messages are decoded values; the generated code is
  not part of this model.
- Cryptography: abstract functions with laws.
- Wakers and `Context`: a poll is a step that may happen at any time.
- The redundancy timer of the behaviour's `poll`, and the order in which `poll` hands events out: an
  adjustment is a step that may happen at any time, and events are a growing list.
- Builder setters and getters of `config.rs`: the configuration is a value.
- Rounding of `f64` in the controller.
- Memory orders weaker than sequential consistency.
- Several connections per peer in the network model; the send queue counter has any number of receivers.
- Networks and failing sinks: a message is on the wire once the handler has taken it, and what the sink loses of
  it then is a loss of the wire.
- Networks and disabled handlers: what a handler drops when it is disabled are steps of the network
  that may happen at any time, and its link may go on transmitting afterwards, which it would not.
- Networks: nodes hold their queues by value, where the source shares them between behaviour and
  handler through channels; the objects of SendQueues and Handlers have the sharing.
- Delivery across origins once routes are disabled: routes are keyed by the previous hop, so that full
  delivery is not promised; what is proved is conditional on copies not being withheld.
- Behaviours.Behaviour.OnConnectionEstablished: the two entry points for inbound and outbound
  connections do the same and are one method.
- Scripts.ExperimentDriver.Setup: node parameters, topics as text and the script's output format are
  left out; nodes are their numbers. Lists of nodes are activated one at a time.
- Scripts.ExperimentDriver.ApplyPhase: records the messages as they are when the phase is applied, where
  the source shares the list with the phase; `ScriptRuns` has the sharing.
- Meshes.RandomMeshConnections: returns the mesh relation beside the dialling lists, with an empty
  list for a node that dials nobody.
- LogMerge.ParseLogFiles: directories, JSON and its errors are left out; a file is a sequence of
  entries, and `heapq` is a collection from which an earliest head is popped.
- LogTotals.LogProcessor.ProcessLogs: meshes and the files written are left out; lines of one kind of
  charge are one constructor.

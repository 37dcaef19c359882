/** The values the DOG protocol passes around: types.rs, config.rs and the events of behaviour.rs. */
module Types {

  datatype Option<+T> = None | Some(value: T)

  newtype Byte = x: int | 0 <= x < 256
  type Bytes = seq<Byte>
  type TxId = Bytes

  datatype PeerId = PeerId(key: nat)
  datatype ConnectionId = ConnectionId(n: nat)

  /** A transaction as it travels. Signature and key are not covered by the signature. */
  datatype RawTransaction = RawTransaction(from: PeerId, seqno: nat, data: Bytes, signature: Option<Bytes>,
                                           key: Option<Bytes>)

  /** A transaction after the data transform, as the application sees it. */
  datatype Transaction = Transaction(from: PeerId, seqno: nat, data: Bytes)

  /** An RPC handed to a peer's send queue. A `Delay` is the instant at which it elapses. */
  datatype RpcOut =
    | Publish(tx: RawTransaction, deadline: nat)
    | Forward(tx: RawTransaction, deadline: nat)
    | HaveTx(id: TxId)
    | ResetRoute
  {
    /** Everything but `Forward` goes through the priority channel. */
    predicate IsPriority() { !Forward? }

    predicate IsControl() { HaveTx? || ResetRoute? }

    /** Only transactions are time-bound. */
    predicate TimedOut(now: nat) { !IsControl() && deadline <= now }
  }

  datatype ControlAction = HaveTxMsg(id: TxId) | ResetRouteMsg

  /** A decoded RPC. */
  datatype Rpc = Rpc(transactions: seq<RawTransaction>, controlMsgs: seq<ControlAction>)

  datatype Route = Route(source: PeerId, target: PeerId)

  datatype Event =
    | TransactionReceived(propagationSource: PeerId, id: TxId, transaction: Transaction)
    | TransactionSent(propagationTarget: PeerId, id: TxId, transaction: Transaction)
    | HaveTxReceived(propagationSource: PeerId, id: TxId)
    | HaveTxSent(propagationTarget: PeerId, id: TxId)
    | ResetRouteReceived(propagationSource: PeerId)
    | ResetRouteSent(propagationTarget: PeerId)
    | RoutingUpdated(disabledRoutes: seq<Route>)

  /** `SeqnoExhausted` stands for the panic of `SequenceNumber::next`. */
  datatype PublishResult =
    | Published(id: TxId)
    | TransformFailed
    | TransactionTooLarge
    | SigningError
    | Duplicate
    | InsufficientPeers
    | AllQueuesFull(attempted: nat)
    | SeqnoExhausted

  /** The parameters the behaviour reads, with the data transform and the signing
      operation as function values. */
  datatype Config = Config(
    maxTransactionsPerRpc: Option<nat>,
    queueLen: nat,
    cacheTime: nat,
    targetRedundancy: real,
    redundancyDeltaPercent: nat,
    publishDuration: nat,
    forwardDuration: nat,
    maxTransmitSize: nat,
    forwardTransactions: bool,
    sendHaveTx: bool,
    ignoreHaveTx: bool,
    transactionId: Transaction -> TxId,
    inbound: RawTransaction -> Option<Transaction>,
    outbound: Bytes -> Option<Bytes>,
    sign: (PeerId, nat, Bytes) -> Option<Bytes>)
  {
    /** The id under which a node running this configuration files a raw transaction. */
    function RawId(raw: RawTransaction): Option<TxId> {
      match inbound(raw)
      case None => None
      case Some(tx) => Some(transactionId(tx))
    }
  }

  const MAX_U64: nat := 0xFFFF_FFFF_FFFF_FFFF

  ghost predicate NoDuplicates<T>(s: seq<T>) {
    forall i, j :: 0 <= i < j < |s| ==> s[i] != s[j]
  }

  /** `order` lists exactly the elements of `s`, each once: one iteration over a hash map. */
  ghost predicate IsOrderOf<T(!new)>(order: seq<T>, s: set<T>) {
    NoDuplicates(order) && (forall x :: x in order <==> x in s)
  }
}

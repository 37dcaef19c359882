/** RPCs as protobuf messages: the conversions of types.rs, the checks of protocol.rs and the signing
    of behaviour.rs. Keys, signatures and the byte form of a message are abstract operations with
    the laws of `Lawful`; framing is not part of this model. */
module Protocol {
  import opened Types
  import opened Nodes
  import opened NodeFacts

  datatype ProtoTransaction = ProtoTransaction(from: Bytes, seqno: nat, data: Bytes, signature: Bytes, key: Bytes)
  datatype ProtoResetRoute = ProtoResetRoute
  datatype ProtoControl = ProtoControl(haveTx: seq<TxId>, resetRoute: seq<ProtoResetRoute>)
  datatype ProtoRpc = ProtoRpc(txs: seq<ProtoTransaction>, control: Option<ProtoControl>)

  datatype PublicKey = PublicKey(id: nat)
  datatype Keypair = Keypair(id: nat)

  datatype Scheme = Scheme(
    peerBytes: PeerId -> Bytes,
    peerFromBytes: Bytes -> Option<PeerId>,
    keyBytes: PublicKey -> Bytes,
    keyFromBytes: Bytes -> Option<PublicKey>,
    peerOf: PublicKey -> PeerId,
    publicKey: Keypair -> PublicKey,
    encode: ProtoTransaction -> Bytes,
    sign: (Keypair, Bytes) -> Option<Bytes>,
    verify: (PublicKey, Bytes, Bytes) -> bool)

  const SIGNING_PREFIX: Bytes := [108, 105, 98, 112, 50, 112, 45, 100, 111, 103, 58]
  const MAX_INLINE_KEY := 42

  /** What is assumed of the operations: decoding undoes encoding, an empty field is neither a key nor
      a signature, a peer id holds the whole key if that is short, and a signature made with a key
      is verified by its public half. */
  ghost predicate Lawful(s: Scheme) {
    && (forall p :: s.peerFromBytes(s.peerBytes(p)) == Some(p) && |s.peerBytes(p)| >= 2)
    && (forall k :: s.keyFromBytes(s.keyBytes(k)) == Some(k))
    && s.keyFromBytes([]) == None
    && (forall k :: |s.keyBytes(k)| <= MAX_INLINE_KEY ==> s.peerBytes(s.peerOf(k))[2..] == s.keyBytes(k))
    && (forall kp, m :: s.sign(kp, m).Some? ==>
        s.sign(kp, m).value != [] && s.verify(s.publicKey(kp), m, s.sign(kp, m).value))
    && (forall k, m {:trigger s.verify(k, m, [])} :: !s.verify(k, m, []))
  }

  // ---- To protobuf ----

  function FieldOf(b: Option<Bytes>): Bytes {
    match b
    case None => []
    case Some(v) => v
  }

  function OptionOf(b: Bytes): Option<Bytes> {
    if b == [] then None else Some(b)
  }

  function ToProto(s: Scheme, raw: RawTransaction): ProtoTransaction {
    ProtoTransaction(s.peerBytes(raw.from), raw.seqno, raw.data, FieldOf(raw.signature), FieldOf(raw.key))
  }

  /** `RpcOut::into_protobuf`. */
  function OutToProto(s: Scheme, m: RpcOut): ProtoRpc {
    match m
    case Publish(tx, _) => ProtoRpc([ToProto(s, tx)], None)
    case Forward(tx, _) => ProtoRpc([ToProto(s, tx)], None)
    case HaveTx(id) => ProtoRpc([], Some(ProtoControl([id], [])))
    case ResetRoute => ProtoRpc([], Some(ProtoControl([], [ProtoResetRoute])))
  }

  function AllToProto(s: Scheme, raws: seq<RawTransaction>): seq<ProtoTransaction> {
    if raws == [] then [] else AllToProto(s, raws[..|raws| - 1]) + [ToProto(s, raws[|raws| - 1])]
  }

  function HaveTxsOf(msgs: seq<ControlAction>): seq<TxId> {
    if msgs == [] then []
    else HaveTxsOf(msgs[..|msgs| - 1]) + if msgs[|msgs| - 1].HaveTxMsg? then [msgs[|msgs| - 1].id] else []
  }

  function ResetsOf(msgs: seq<ControlAction>): seq<ProtoResetRoute> {
    if msgs == [] then []
    else ResetsOf(msgs[..|msgs| - 1]) + if msgs[|msgs| - 1].ResetRouteMsg? then [ProtoResetRoute] else []
  }

  /** `Rpc::into_protobuf`. */
  function RpcToProto(s: Scheme, rpc: Rpc): ProtoRpc {
    ProtoRpc(AllToProto(s, rpc.transactions), Some(ProtoControl(HaveTxsOf(rpc.controlMsgs), ResetsOf(rpc.controlMsgs))))
  }

  // ---- From protobuf ----

  datatype ValidationMode = Strict | NoValidation
  datatype ValidationError = InvalidPeerId | InvalidSignature
  datatype InvalidTransaction = InvalidTransaction(raw: RawTransaction, error: ValidationError)

  function Unsigned(tx: ProtoTransaction): ProtoTransaction {
    tx.(signature := [], key := [])
  }

  function SignedBytes(s: Scheme, tx: ProtoTransaction): Bytes {
    SIGNING_PREFIX + s.encode(Unsigned(tx))
  }

  /** The key a transaction is checked against: the one it carries, or else the one inside its
      author's peer id. */
  function KeyOf(s: Scheme, tx: ProtoTransaction, author: PeerId): Option<PublicKey> {
    match s.keyFromBytes(tx.key)
    case Some(k) => Some(k)
    case None => if |s.peerBytes(author)| >= 2 then s.keyFromBytes(s.peerBytes(author)[2..]) else None
  }

  function VerifySignature(s: Scheme, tx: ProtoTransaction): bool {
    match s.peerFromBytes(tx.from)
    case None => false
    case Some(author) =>
      match KeyOf(s, tx, author)
      case None => false
      case Some(k) => author == s.peerOf(k) && s.verify(k, SignedBytes(s, tx), tx.signature)
  }

  function ToRaw(tx: ProtoTransaction, from: PeerId): RawTransaction {
    RawTransaction(from, tx.seqno, tx.data, OptionOf(tx.signature), OptionOf(tx.key))
  }

  /** What decoding makes of one transaction. `stand` is the random author a transaction gets whose
      own does not parse. */
  datatype Verdict = Good(raw: RawTransaction) | Bad(invalid: InvalidTransaction)

  function Judge(s: Scheme, mode: ValidationMode, tx: ProtoTransaction, stand: PeerId): Verdict {
    match s.peerFromBytes(tx.from)
    case None => Bad(InvalidTransaction(ToRaw(tx, stand), InvalidPeerId))
    case Some(author) =>
      if mode == Strict && !VerifySignature(s, tx) then Bad(InvalidTransaction(ToRaw(tx, author), InvalidSignature))
      else Good(ToRaw(tx, author))
  }

  /** `stand(i)` is the random author drawn for transaction `i`, should it need one. */
  function Verdicts(s: Scheme, mode: ValidationMode, txs: seq<ProtoTransaction>,
                    stand: nat -> PeerId): (v: seq<Verdict>)
    ensures |v| == |txs| && forall i :: 0 <= i < |txs| ==> v[i] == Judge(s, mode, txs[i], stand(i))
  {
    seq(|txs|, i requires 0 <= i < |txs| => Judge(s, mode, txs[i], stand(i)))
  }

  function GoodOf(v: seq<Verdict>): seq<RawTransaction> {
    if v == [] then [] else GoodOf(v[..|v| - 1]) + if v[|v| - 1].Good? then [v[|v| - 1].raw] else []
  }

  function BadOf(v: seq<Verdict>): seq<InvalidTransaction> {
    if v == [] then [] else BadOf(v[..|v| - 1]) + if v[|v| - 1].Bad? then [v[|v| - 1].invalid] else []
  }

  function ControlsOf(control: Option<ProtoControl>): seq<ControlAction> {
    match control
    case None => []
    case Some(c) => AsHaveTx(c.haveTx) + AsReset(c.resetRoute)
  }

  function AsHaveTx(ids: seq<TxId>): seq<ControlAction> {
    seq(|ids|, i requires 0 <= i < |ids| => HaveTxMsg(ids[i]))
  }

  function AsReset(resets: seq<ProtoResetRoute>): seq<ControlAction> {
    seq(|resets|, i => ResetRouteMsg)
  }

  /** `DogCodec::decode` of one framed message. */
  method Decode(s: Scheme, mode: ValidationMode, rpc: ProtoRpc, stand: nat -> PeerId)
    returns (decoded: Rpc, invalid: seq<InvalidTransaction>)
    ensures decoded == Rpc(GoodOf(Verdicts(s, mode, rpc.txs, stand)), ControlsOf(rpc.control))
    ensures invalid == BadOf(Verdicts(s, mode, rpc.txs, stand))
  {
    var transactions: seq<RawTransaction> := [];
    invalid := [];
    ghost var verdicts := Verdicts(s, mode, rpc.txs, stand);
    for i := 0 to |rpc.txs|
      invariant transactions == GoodOf(verdicts[..i]) && invalid == BadOf(verdicts[..i])
    {
      assert verdicts[..i + 1][..i] == verdicts[..i];
      var tx := rpc.txs[i];
      var verifySignature := false;
      match mode {
        case Strict => verifySignature := true;
        case NoValidation =>
      }
      var parsed := s.peerFromBytes(tx.from);
      if parsed.None? {
        invalid := invalid + [InvalidTransaction(ToRaw(tx, stand(i)), InvalidPeerId)];
        continue;
      }
      if verifySignature && !VerifySignature(s, tx) {
        invalid := invalid + [InvalidTransaction(ToRaw(tx, parsed.value), InvalidSignature)];
        continue;
      }
      transactions := transactions + [ToRaw(tx, parsed.value)];
    }
    assert verdicts[..|rpc.txs|] == verdicts;
    var controlMsgs: seq<ControlAction> := [];
    if rpc.control.Some? {
      controlMsgs := controlMsgs + AsHaveTx(rpc.control.value.haveTx);
      controlMsgs := controlMsgs + AsReset(rpc.control.value.resetRoute);
    }
    decoded := Rpc(transactions, controlMsgs);
  }

  // ---- Splitting keeps order ----

  ghost predicate Increasing(s: seq<nat>) {
    forall i, j :: 0 <= i < j < |s| ==> s[i] < s[j]
  }

  /** `good` and `bad` are the places of the two kinds of verdicts. */
  ghost predicate Places(v: seq<Verdict>, good: seq<nat>, bad: seq<nat>) {
    && Increasing(good) && Increasing(bad) && |good| + |bad| == |v|
    && (forall i :: i in good ==> i < |v| && v[i].Good?)
    && (forall i :: i in bad ==> i < |v| && v[i].Bad?)
  }

  /** Decoding splits the transactions in two without reordering, losing or making any: there are
      increasing places that between them are all places, the accepted transactions stand at the
      ones and the refused ones at the others. */
  lemma {:induction false} DecodeSplits(v: seq<Verdict>) returns (good: seq<nat>, bad: seq<nat>)
    ensures Places(v, good, bad)
    ensures |GoodOf(v)| == |good| && forall k :: 0 <= k < |good| ==> good[k] < |v| && Good(GoodOf(v)[k]) == v[good[k]]
    ensures |BadOf(v)| == |bad| && forall k :: 0 <= k < |bad| ==> bad[k] < |v| && Bad(BadOf(v)[k]) == v[bad[k]]
  {
    good, bad := [], [];
    if v != [] {
      var n := |v| - 1;
      good, bad := DecodeSplits(v[..n]);
      if v[n].Good? {
        good := good + [n];
      } else {
        bad := bad + [n];
      }
    }
  }

  /** What a field of the wire is to the behaviour: an empty one counts as absent. */
  ghost predicate Carries(raw: RawTransaction, tx: ProtoTransaction, from: PeerId) {
    && raw.from == from && raw.seqno == tx.seqno && raw.data == tx.data
    && (if tx.signature == [] then raw.signature == None else raw.signature == Some(tx.signature))
    && (if tx.key == [] then raw.key == None else raw.key == Some(tx.key))
  }

  /** A transaction is accepted if and only if its author parses, whatever the mode, and in strict mode its
      signature verifies. It is refused as of an invalid peer id if and only if the author does not parse, and then
      has a random one; otherwise it keeps its author and is refused for its signature. Content, signature and key
      are those on the wire in any case. */
  lemma DecodeAcceptsExactly(s: Scheme, mode: ValidationMode, txs: seq<ProtoTransaction>, stand: nat -> PeerId)
    returns (good: seq<nat>, bad: seq<nat>)
    ensures var v := Verdicts(s, mode, txs, stand);
            && Places(v, good, bad)
            && |GoodOf(v)| == |good| && |BadOf(v)| == |bad|
            && (forall k :: 0 <= k < |good| ==>
                  good[k] < |txs| &&
                  var tx := txs[good[k]];
                  && s.peerFromBytes(tx.from).Some? && (mode == Strict ==> VerifySignature(s, tx))
                  && Carries(GoodOf(v)[k], tx, s.peerFromBytes(tx.from).value))
            && (forall k :: 0 <= k < |bad| ==>
                  bad[k] < |txs| &&
                  var tx := txs[bad[k]];
                  match s.peerFromBytes(tx.from)
                  case None => BadOf(v)[k].error == InvalidPeerId && Carries(BadOf(v)[k].raw, tx, stand(bad[k]))
                  case Some(author) =>
                    && mode == Strict && !VerifySignature(s, tx)
                    && BadOf(v)[k].error == InvalidSignature && Carries(BadOf(v)[k].raw, tx, author))
  {
    hide VerifySignature;
    good, bad := DecodeSplits(Verdicts(s, mode, txs, stand));
  }

  // ---- Round trips ----

  /** No field is present and empty. */
  ghost predicate Canonical(raw: RawTransaction) {
    raw.signature != Some([]) && raw.key != Some([])
  }

  /** A message that is sent and decoded without validation is the message again; in strict mode that
      is so exactly if its signature is verified. An empty field comes back as an absent one, so
      the form of the message matters, too. */
  lemma TransactionRoundTrip(s: Scheme, mode: ValidationMode, raw: RawTransaction, stand: PeerId)
    requires Lawful(s)
    ensures Judge(s, mode, ToProto(s, raw), stand) == Good(raw) <==>
              Canonical(raw) && (mode == Strict ==> VerifySignature(s, ToProto(s, raw)))
  {}

  /** The network's `AsRpc` is what decoding makes of a sent message. */
  lemma OutRoundTrip(s: Scheme, mode: ValidationMode, m: RpcOut, stand: nat -> PeerId)
    requires Lawful(s)
    requires !m.IsControl() ==> Canonical(m.tx) && (mode == Strict ==> VerifySignature(s, ToProto(s, m.tx)))
    ensures var p := OutToProto(s, m);
            var v := Verdicts(s, mode, p.txs, stand);
            Rpc(GoodOf(v), ControlsOf(p.control)) == AsRpc(m) && BadOf(v) == []
  {
    hide Lawful;
    var p := OutToProto(s, m);
    var v := Verdicts(s, mode, p.txs, stand);
    if !m.IsControl() {
      TransactionRoundTrip(s, mode, m.tx, stand(0));
      assert v == [Good(m.tx)];
      assert v[..0] == [];
    } else {
      assert v == [];
    }
  }

  lemma {:induction false} AllToProtoAt(s: Scheme, raws: seq<RawTransaction>)
    ensures |AllToProto(s, raws)| == |raws| && forall i :: 0 <= i < |raws| ==>
              AllToProto(s, raws)[i] == ToProto(s, raws[i])
  {
    if raws != [] {
      AllToProtoAt(s, raws[..|raws| - 1]);
    }
  }

  lemma {:induction false} AllGood(v: seq<Verdict>, raws: seq<RawTransaction>)
    requires |v| == |raws| && forall i :: 0 <= i < |v| ==> v[i] == Good(raws[i])
    ensures GoodOf(v) == raws && BadOf(v) == []
  {
    if v != [] {
      AllGood(v[..|v| - 1], raws[..|raws| - 1]);
      assert raws == raws[..|raws| - 1] + [raws[|raws| - 1]];
    }
  }

  /** Control messages come back sorted: all HaveTx in their order, then all ResetRoute. */
  function Sorted(msgs: seq<ControlAction>): seq<ControlAction> {
    AsHaveTx(HaveTxsOf(msgs)) + AsReset(ResetsOf(msgs))
  }

  lemma AppendBlocks(ids: seq<TxId>, resets: seq<ProtoResetRoute>, id: TxId)
    ensures AsHaveTx(ids + [id]) == AsHaveTx(ids) + [HaveTxMsg(id)]
    ensures AsReset(resets + [ProtoResetRoute]) == AsReset(resets) + [ResetRouteMsg]
  {}

  lemma {:induction false} SortedIsPermutation(msgs: seq<ControlAction>)
    ensures multiset(Sorted(msgs)) == multiset(msgs)
  {
    hide AsHaveTx, AsReset;
    if msgs != [] {
      var n := |msgs| - 1;
      SortedIsPermutation(msgs[..n]);
      assert msgs == msgs[..n] + [msgs[n]];
      var h, r := HaveTxsOf(msgs[..n]), ResetsOf(msgs[..n]);
      if msgs[n].HaveTxMsg? {
        AppendBlocks(h, r, msgs[n].id);
        assert ResetsOf(msgs) == r;
      } else {
        AppendBlocks(h, r, []);
        assert HaveTxsOf(msgs) == h;
      }
    } else {
      assert AsHaveTx([]) + AsReset([]) == [] by { NoBlocks(); }
    }
  }

  lemma NoBlocks()
    ensures AsHaveTx([]) == [] && AsReset([]) == []
  {}

  /** Sorting keeps what either kind says, so that sorting twice is sorting once. */
  lemma SortedTwice(msgs: seq<ControlAction>)
    ensures HaveTxsOf(Sorted(msgs)) == HaveTxsOf(msgs) && ResetsOf(Sorted(msgs)) == ResetsOf(msgs)
    ensures Sorted(Sorted(msgs)) == Sorted(msgs)
  {
    hide AsHaveTx, AsReset, HaveTxsOf, ResetsOf;
    BlocksOf(HaveTxsOf(msgs), ResetsOf(msgs));
  }

  lemma OneMoreControl(msgs: seq<ControlAction>, m: ControlAction)
    ensures HaveTxsOf(msgs + [m]) == HaveTxsOf(msgs) + if m.HaveTxMsg? then [m.id] else []
    ensures ResetsOf(msgs + [m]) == ResetsOf(msgs) + if m.ResetRouteMsg? then [ProtoResetRoute] else []
  {
    assert (msgs + [m])[..|msgs|] == msgs;
  }

  lemma {:induction false} BlocksOf(ids: seq<TxId>, resets: seq<ProtoResetRoute>)
    ensures HaveTxsOf(AsHaveTx(ids) + AsReset(resets)) == ids && ResetsOf(AsHaveTx(ids) + AsReset(resets)) == resets
    decreases |ids| + |resets|
  {
    hide AsHaveTx, AsReset, HaveTxsOf, ResetsOf;
    NoBlocks();
    if resets != [] {
      var k := |resets| - 1;
      BlocksOf(ids, resets[..k]);
      AppendBlocks(ids, resets[..k], []);
      assert resets[k] == ProtoResetRoute by { match resets[k] case ProtoResetRoute => }
      assert resets == resets[..k] + [ProtoResetRoute];
      assert AsHaveTx(ids) + AsReset(resets) == AsHaveTx(ids) + AsReset(resets[..k]) + [ResetRouteMsg];
      OneMoreControl(AsHaveTx(ids) + AsReset(resets[..k]), ResetRouteMsg);
    } else if ids != [] {
      var k := |ids| - 1;
      BlocksOf(ids[..k], resets);
      AppendBlocks(ids[..k], resets, ids[k]);
      assert ids == ids[..k] + [ids[k]];
      assert AsHaveTx(ids) + AsReset(resets) == AsHaveTx(ids[..k]) + AsReset(resets) + [HaveTxMsg(ids[k])];
      OneMoreControl(AsHaveTx(ids[..k]) + AsReset(resets), HaveTxMsg(ids[k]));
    } else {
      NoControls();
    }
  }

  lemma NoControls()
    ensures HaveTxsOf([] + []) == [] && ResetsOf([] + []) == []
  {}

  /** A whole RPC that is sent and decoded keeps its transactions and, up to the order of HaveTx before
      ResetRoute, its control messages. */
  lemma RpcRoundTrip(s: Scheme, mode: ValidationMode, rpc: Rpc, stand: nat -> PeerId)
    requires Lawful(s)
    requires forall raw :: raw in rpc.transactions ==>
               Canonical(raw) && (mode == Strict ==> VerifySignature(s, ToProto(s, raw)))
    ensures var p := RpcToProto(s, rpc);
            var v := Verdicts(s, mode, p.txs, stand);
            && GoodOf(v) == rpc.transactions && BadOf(v) == []
            && ControlsOf(p.control) == Sorted(rpc.controlMsgs)
            && multiset(ControlsOf(p.control)) == multiset(rpc.controlMsgs)
  {
    hide Lawful, VerifySignature, HaveTxsOf, ResetsOf;
    var p := RpcToProto(s, rpc);
    var v := Verdicts(s, mode, p.txs, stand);
    AllToProtoAt(s, rpc.transactions);
    forall i | 0 <= i < |v|
      ensures v[i] == Good(rpc.transactions[i])
    {
      TransactionRoundTrip(s, mode, rpc.transactions[i], stand(i));
    }
    AllGood(v, rpc.transactions);
    SortedIsPermutation(rpc.controlMsgs);
  }

  // ---- Signing ----

  /** The key a transaction carries: none if the peer id holds it already. */
  function InlineKey(s: Scheme, kp: Keypair): Option<Bytes> {
    var enc := s.keyBytes(s.publicKey(kp));
    if |enc| <= MAX_INLINE_KEY then None else Some(enc)
  }

  /** The text a signature is made over. */
  function SignedText(s: Scheme, author: PeerId, seqno: nat, data: Bytes): Bytes {
    SIGNING_PREFIX + s.encode(ProtoTransaction(s.peerBytes(author), seqno, data, [], []))
  }

  /** `build_raw_transaction` for a signing author. */
  function MadeBy(s: Scheme, kp: Keypair, seqno: nat, data: Bytes): Option<RawTransaction> {
    var author := s.peerOf(s.publicKey(kp));
    match s.sign(kp, SignedText(s, author, seqno, data))
    case None => None
    case Some(signature) => Some(RawTransaction(author, seqno, data, Some(signature), InlineKey(s, kp)))
  }

  /** A signed transaction passes the check, whether its key is carried or comes from the peer id. */
  lemma SignedVerifies(s: Scheme, kp: Keypair, seqno: nat, data: Bytes)
    requires Lawful(s) && MadeBy(s, kp, seqno, data).Some?
    ensures var raw := MadeBy(s, kp, seqno, data).value;
            && Canonical(raw) && VerifySignature(s, ToProto(s, raw))
            && raw.from == s.peerOf(s.publicKey(kp)) && raw.seqno == seqno && raw.data == data
            && raw.key == if |s.keyBytes(s.publicKey(kp))| <= 42 then None else Some(s.keyBytes(s.publicKey(kp)))
  {
    var raw := MadeBy(s, kp, seqno, data).value;
    var k := s.publicKey(kp);
    var tx := ToProto(s, raw);
    assert s.keyFromBytes(s.keyBytes(k)) == Some(k);
    assert Unsigned(tx) == ProtoTransaction(s.peerBytes(s.peerOf(k)), seqno, data, [], []);
    if |s.keyBytes(k)| <= MAX_INLINE_KEY {
      assert s.peerBytes(s.peerOf(k))[2..] == s.keyBytes(k);
    }
    assert KeyOf(s, tx, raw.from) == Some(k);
  }

  /** One hop: the transaction travels as a Publish or a Forward and is decoded by the next node. */
  function Hop(s: Scheme, mode: ValidationMode, raw: RawTransaction, published: bool, deadline: nat,
               stand: nat -> PeerId): seq<RawTransaction> {
    var m := if published then RpcOut.Publish(raw, deadline) else RpcOut.Forward(raw, deadline);
    GoodOf(Verdicts(s, mode, OutToProto(s, m).txs, stand))
  }

  /** What arrives after a chain of hops with these modes, forwarded every time as it was decoded. */
  function AfterHops(s: Scheme, modes: seq<ValidationMode>, raw: RawTransaction, deadline: nat,
                     stand: nat -> PeerId): seq<RawTransaction> {
    if modes == [] then [raw]
    else
      var before := AfterHops(s, modes[..|modes| - 1], raw, deadline, stand);
      if |before| == 1 then Hop(s, modes[|modes| - 1], before[0], |modes| == 1, deadline, stand) else []
  }

  /** A signed transaction is accepted, unchanged, after any number of hops and whatever each hop
      validates. */
  lemma {:induction false} AcceptedAtAnyHop(s: Scheme, kp: Keypair, seqno: nat, data: Bytes, modes: seq<ValidationMode>,
                                            deadline: nat, stand: nat -> PeerId)
    requires Lawful(s) && MadeBy(s, kp, seqno, data).Some?
    ensures AfterHops(s, modes, MadeBy(s, kp, seqno, data).value, deadline, stand) == [MadeBy(s, kp, seqno, data).value]
  {
    hide Lawful, MadeBy, VerifySignature;
    if modes != [] {
      var raw := MadeBy(s, kp, seqno, data).value;
      AcceptedAtAnyHop(s, kp, seqno, data, modes[..|modes| - 1], deadline, stand);
      SignedVerifies(s, kp, seqno, data);
      var m := if |modes| == 1 then RpcOut.Publish(raw, deadline) else RpcOut.Forward(raw, deadline);
      OutRoundTrip(s, modes[|modes| - 1], m, stand);
    }
  }

  /** Without a signature a transaction passes nowhere where signatures are checked. */
  lemma UnsignedRefusedWhenStrict(s: Scheme, raw: RawTransaction, stand: PeerId)
    requires Lawful(s) && raw.signature == None
    ensures Judge(s, Strict, ToProto(s, raw), stand) ==
              Bad(InvalidTransaction(ToRaw(ToProto(s, raw), raw.from), InvalidSignature))
  {}

  /** The node signs with `kp`. */
  ghost predicate SignsWith(s: Scheme, kp: Keypair, n: Node) {
    var author := s.peerOf(s.publicKey(kp));
    && n.publishConfig.Signing? && n.publishConfig.author == author && n.publishConfig.inlineKey == InlineKey(s, kp)
    && forall seqno, data :: n.cfg.sign(author, seqno, data) == s.sign(kp, SignedText(s, author, seqno, data))
  }

  /** Whatever a signing node publishes is accepted, unchanged, after any number of hops. */
  lemma PublishedAcceptedAtAnyHop(s: Scheme, kp: Keypair, n: Node, data: Bytes, modes: seq<ValidationMode>,
                                  deadline: nat, stand: nat -> PeerId)
    requires Lawful(s) && SignsWith(s, kp, n) && Built(n, data).Some?
    ensures AfterHops(s, modes, Built(n, data).value, deadline, stand) == [Built(n, data).value]
  {
    hide Lawful, AfterHops;
    var transformed := n.cfg.outbound(data).value;
    var seqno := n.publishConfig.lastSeqno + 1;
    assert Built(n, data) == MadeBy(s, kp, seqno, transformed);
    AcceptedAtAnyHop(s, kp, seqno, transformed, modes, deadline, stand);
  }

  // ---- Authenticity ----

  /** An author whose key is short enough for the peer id may carry it or leave it out: the check comes
      to the same. */
  lemma CarriedKeyAgrees(s: Scheme, k: PublicKey, tx: ProtoTransaction)
    requires Lawful(s) && |s.keyBytes(k)| <= MAX_INLINE_KEY && tx.from == s.peerBytes(s.peerOf(k))
    ensures VerifySignature(s, tx.(key := s.keyBytes(k))) == VerifySignature(s, tx.(key := []))
  {
    var author := s.peerOf(k);
    assert s.peerFromBytes(s.peerBytes(author)) == Some(author);
    assert s.keyFromBytes(s.keyBytes(k)) == Some(k);
    assert s.peerBytes(author)[2..] == s.keyBytes(k);
    var carried, inlined := tx.(key := s.keyBytes(k)), tx.(key := []);
    assert KeyOf(s, carried, author) == Some(k) && KeyOf(s, inlined, author) == Some(k);
    assert Unsigned(carried) == Unsigned(inlined);
  }

  /** Transactions that carry the same key are accepted for one author at most, whatever else differs. */
  lemma OneAuthorPerKey(s: Scheme, tx1: ProtoTransaction, tx2: ProtoTransaction, stand1: PeerId, stand2: PeerId)
    requires tx1.key == tx2.key && s.keyFromBytes(tx1.key).Some?
    requires Judge(s, Strict, tx1, stand1).Good? && Judge(s, Strict, tx2, stand2).Good?
    ensures Judge(s, Strict, tx1, stand1).raw.from == Judge(s, Strict, tx2, stand2).raw.from
  {
    var k := s.keyFromBytes(tx1.key).value;
    assert KeyOf(s, tx1, s.peerFromBytes(tx1.from).value) == Some(k);
    assert KeyOf(s, tx2, s.peerFromBytes(tx2.from).value) == Some(k);
  }

  /** `text` is what the author signs for one of its publications. */
  ghost predicate SignedFor(s: Scheme, published: (PeerId, nat, Bytes) -> bool, author: PeerId, text: Bytes) {
    exists seqno, data :: published(author, seqno, data) && text == SignedText(s, author, seqno, data)
  }

  /** Different messages have different bytes, and signatures are made by nobody but the holder of the key,
      for its publications only. */
  ghost predicate Unforgeable(s: Scheme, published: (PeerId, nat, Bytes) -> bool) {
    && (forall t, u {:trigger s.encode(t), s.encode(u)} :: s.encode(t) == s.encode(u) ==> t == u)
    && (forall k, text, signature {:trigger s.verify(k, text, signature)} ::
          s.verify(k, text, signature) ==> SignedFor(s, published, s.peerOf(k), text))
  }

  /** What strict mode accepts was published by the author it names, with that number and that data. */
  lemma AcceptedIsAuthentic(s: Scheme, published: (PeerId, nat, Bytes) -> bool, tx: ProtoTransaction, stand: PeerId)
    requires Unforgeable(s, published) && Judge(s, Strict, tx, stand).Good?
    ensures var raw := Judge(s, Strict, tx, stand).raw;
            tx.from == s.peerBytes(raw.from) && published(raw.from, raw.seqno, raw.data)
  {
    var author := s.peerFromBytes(tx.from).value;
    var k := KeyOf(s, tx, author).value;
    assert s.verify(k, SignedBytes(s, tx), tx.signature);
    var seqno, data :| published(author, seqno, data) && SignedBytes(s, tx) == SignedText(s, author, seqno, data);
    assert SignedBytes(s, tx)[|SIGNING_PREFIX|..] == s.encode(Unsigned(tx));
    assert SignedText(s, author, seqno, data)[|SIGNING_PREFIX|..] ==
           s.encode(ProtoTransaction(s.peerBytes(author), seqno, data, [], []));
  }

  /** Two transactions with the same author, number and data. */
  predicate SameContent(raw: RawTransaction, raw': RawTransaction) {
    raw.from == raw'.from && raw.seqno == raw'.seqno && raw.data == raw'.data
  }

  lemma HopAuthenticates(s: Scheme, published: (PeerId, nat, Bytes) -> bool, mode: ValidationMode, raw: RawTransaction,
                         first: bool, deadline: nat, stand: nat -> PeerId)
    requires Lawful(s) && Unforgeable(s, published)
    ensures var after := Hop(s, mode, raw, first, deadline, stand);
            && |after| <= 1 && (forall r :: r in after ==> SameContent(raw, r))
            && (mode == Strict && after != [] ==> published(raw.from, raw.seqno, raw.data))
  {
    hide Unforgeable, VerifySignature;
    var m := if first then RpcOut.Publish(raw, deadline) else RpcOut.Forward(raw, deadline);
    var v := Verdicts(s, mode, OutToProto(s, m).txs, stand);
    assert s.peerFromBytes(s.peerBytes(raw.from)) == Some(raw.from);
    var verdict := Judge(s, mode, ToProto(s, raw), stand(0));
    assert v == [verdict];
    assert GoodOf(v[..0]) == [];
    assert Hop(s, mode, raw, first, deadline, stand) == if verdict.Good? then [verdict.raw] else [];
    if mode == Strict && v[0].Good? {
      AcceptedIsAuthentic(s, published, ToProto(s, raw), stand(0));
    }
  }

  /** A transaction keeps its author, number and data over any number of hops, and one hop in strict mode
      anywhere on the way stops all that its author did not publish: whatever a chain with such a
      hop lets through was published. */
  lemma {:induction false} OneStrictHopSuffices(s: Scheme, published: (PeerId, nat, Bytes) -> bool,
                                                modes: seq<ValidationMode>,
                                                raw: RawTransaction, deadline: nat, stand: nat -> PeerId)
    requires Lawful(s) && Unforgeable(s, published)
    ensures var after := AfterHops(s, modes, raw, deadline, stand);
            && |after| <= 1 && (forall r :: r in after ==> SameContent(raw, r))
            && (Strict in modes && after != [] ==> published(raw.from, raw.seqno, raw.data))
  {
    hide Lawful, Unforgeable, Hop;
    if modes != [] {
      var k := |modes| - 1;
      OneStrictHopSuffices(s, published, modes[..k], raw, deadline, stand);
      var before := AfterHops(s, modes[..k], raw, deadline, stand);
      if |before| == 1 {
        assert SameContent(raw, before[0]);
        HopAuthenticates(s, published, modes[k], before[0], |modes| == 1, deadline, stand);
      }
    }
  }

  // ---- A scheme that meets the laws ----

  function Unary(n: nat): (b: Bytes)
    ensures |b| == n + 1
  {
    seq(n + 1, i => 1)
  }

  /** Bytes in a form that tells where it ends. */
  function Delimited(b: Bytes): Bytes {
    if b == [] then [0] else [1, b[0]] + Delimited(b[1..])
  }

  function Tally(n: nat): Bytes {
    if n == 0 then [0] else [1] + Tally(n - 1)
  }

  function Record(tx: ProtoTransaction): Bytes {
    Delimited(tx.from) + (Tally(tx.seqno) + (Delimited(tx.data) + (Delimited(tx.signature) + Delimited(tx.key))))
  }

  lemma {:induction false} DelimitedEnds(a: Bytes, b: Bytes, x: Bytes, y: Bytes)
    requires Delimited(a) + x == Delimited(b) + y
    ensures a == b && x == y
  {
    assert (Delimited(a) + x)[0] == (Delimited(b) + y)[0];
    if a == [] {
      assert (Delimited(a) + x)[1..] == x && (Delimited(b) + y)[1..] == y;
    } else {
      assert (Delimited(a) + x)[1] == a[0] && (Delimited(b) + y)[1] == b[0];
      assert (Delimited(a) + x)[2..] == Delimited(a[1..]) + x && (Delimited(b) + y)[2..] == Delimited(b[1..]) + y;
      DelimitedEnds(a[1..], b[1..], x, y);
      assert a == [a[0]] + a[1..] && b == [b[0]] + b[1..];
    }
  }

  lemma {:induction false} TallyEnds(m: nat, n: nat, x: Bytes, y: Bytes)
    requires Tally(m) + x == Tally(n) + y
    ensures m == n && x == y
  {
    assert (Tally(m) + x)[0] == (Tally(n) + y)[0];
    if m == 0 {
      assert (Tally(m) + x)[1..] == x && (Tally(n) + y)[1..] == y;
    } else {
      assert (Tally(m) + x)[1..] == Tally(m - 1) + x && (Tally(n) + y)[1..] == Tally(n - 1) + y;
      TallyEnds(m - 1, n - 1, x, y);
    }
  }

  lemma RecordTells(t: ProtoTransaction, u: ProtoTransaction)
    requires Record(t) == Record(u)
    ensures t == u
  {
    hide Delimited, Tally;
    DelimitedEnds(t.from, u.from, Tally(t.seqno) + (Delimited(t.data) + (Delimited(t.signature) + Delimited(t.key))),
                  Tally(u.seqno) + (Delimited(u.data) + (Delimited(u.signature) + Delimited(u.key))));
    TallyEnds(t.seqno, u.seqno, Delimited(t.data) + (Delimited(t.signature) + Delimited(t.key)),
              Delimited(u.data) + (Delimited(u.signature) + Delimited(u.key)));
    DelimitedEnds(t.data, u.data, Delimited(t.signature) + Delimited(t.key), Delimited(u.signature) + Delimited(u.key));
    assert Delimited(t.key) + [] == Delimited(t.key) && Delimited(u.key) + [] == Delimited(u.key);
    DelimitedEnds(t.signature, u.signature, Delimited(t.key), Delimited(u.key));
    DelimitedEnds(t.key, u.key, [], []);
  }

  function ToyPeerBytes(p: PeerId): Bytes {
    [0, 0] + Unary(p.key)
  }

  ghost predicate ToySigned(published: (PeerId, nat, Bytes) -> bool, author: PeerId, text: Bytes) {
    exists seqno, data :: published(author, seqno, data) &&
                          text == SIGNING_PREFIX + Record(ProtoTransaction(ToyPeerBytes(author), seqno, data, [], []))
  }

  /** Unary keys that are their own peer ids, and one signature for everything published. */
  ghost function ToyScheme(published: (PeerId, nat, Bytes) -> bool): Scheme {
    Scheme(
      (p: PeerId) => ToyPeerBytes(p),
      (b: Bytes) => if |b| > 2 then Some(PeerId(|b| - 3)) else None,
      (k: PublicKey) => Unary(k.id),
      (b: Bytes) => if b == [] then None else Some(PublicKey(|b| - 1)),
      (k: PublicKey) => PeerId(k.id),
      (kp: Keypair) => PublicKey(kp.id),
      (tx: ProtoTransaction) => Record(tx),
      (kp: Keypair, text: Bytes) => if ToySigned(published, PeerId(kp.id), text) then Some([1]) else None,
      (k: PublicKey, text: Bytes, signature: Bytes) => signature == [1] && ToySigned(published, PeerId(k.id), text))
  }

  /** The laws do not contradict each other: whatever is published, there is a scheme that meets them and
      lets every author sign just that. */
  lemma LawsCanBeMet(published: (PeerId, nat, Bytes) -> bool)
    ensures var s := ToyScheme(published);
            && Lawful(s) && Unforgeable(s, published)
            && forall kp, seqno, data :: MadeBy(s, kp, seqno, data).Some? <==>
                 published(s.peerOf(s.publicKey(kp)), seqno, data)
  {
    hide Unary, Record;
    var s := ToyScheme(published);
    ToyLawful(published);
    forall t, u | s.encode(t) == s.encode(u)
      ensures t == u
    {
      RecordTells(t, u);
    }
    forall k: PublicKey, text | ToySigned(published, PeerId(k.id), text)
      ensures SignedFor(s, published, s.peerOf(k), text)
    {
      var author := PeerId(k.id);
      var seqno, data :| published(author, seqno, data) &&
                         text == SIGNING_PREFIX + Record(ProtoTransaction(ToyPeerBytes(author), seqno, data, [], []));
      assert text == SignedText(s, s.peerOf(k), seqno, data);
    }
    forall kp, seqno, data
      ensures MadeBy(s, kp, seqno, data).Some? <==> published(s.peerOf(s.publicKey(kp)), seqno, data)
    {
      ToySigns(published, kp, seqno, data);
    }
  }

  lemma ToySigns(published: (PeerId, nat, Bytes) -> bool, kp: Keypair, seqno: nat, data: Bytes)
    ensures var s := ToyScheme(published);
            MadeBy(s, kp, seqno, data).Some? <==> published(s.peerOf(s.publicKey(kp)), seqno, data)
  {
    hide Unary, Record;
    var author := PeerId(kp.id);
    var tx := ProtoTransaction(ToyPeerBytes(author), seqno, data, [], []);
    var text := SIGNING_PREFIX + Record(tx);
    if seqno', data' :| published(author, seqno', data') &&
                        text == SIGNING_PREFIX + Record(ProtoTransaction(ToyPeerBytes(author), seqno', data', [], [])) {
      var tx' := ProtoTransaction(ToyPeerBytes(author), seqno', data', [], []);
      assert text[|SIGNING_PREFIX|..] == Record(tx) &&
             (SIGNING_PREFIX + Record(tx'))[|SIGNING_PREFIX|..] == Record(tx');
      RecordTells(tx, tx');
    }
  }

  lemma ToyLawful(published: (PeerId, nat, Bytes) -> bool)
    ensures Lawful(ToyScheme(published))
  {
    hide ToyScheme;
    ToyKeys(published);
    ToySignatures(published);
  }

  lemma ToyKeys(published: (PeerId, nat, Bytes) -> bool)
    ensures var s := ToyScheme(published);
            && (forall p :: s.peerFromBytes(s.peerBytes(p)) == Some(p) && |s.peerBytes(p)| >= 2)
            && (forall k :: s.keyFromBytes(s.keyBytes(k)) == Some(k))
            && s.keyFromBytes([]) == None
            && (forall k :: s.peerBytes(s.peerOf(k))[2..] == s.keyBytes(k))
  {
    hide Unary, ToyPeerBytes;
    var s := ToyScheme(published);
    forall p: PeerId
      ensures s.peerFromBytes(s.peerBytes(p)) == Some(p) && |s.peerBytes(p)| >= 2
    {
      ToyPeerId(p);
    }
    forall k: PublicKey
      ensures s.peerBytes(s.peerOf(k))[2..] == s.keyBytes(k)
    {
      ToyPeerId(PeerId(k.id));
    }
  }

  lemma ToySignatures(published: (PeerId, nat, Bytes) -> bool)
    ensures var s := ToyScheme(published);
            && (forall kp, m :: s.sign(kp, m).Some? ==>
                s.sign(kp, m).value != [] && s.verify(s.publicKey(kp), m, s.sign(kp, m).value))
            && (forall k, m {:trigger s.verify(k, m, [])} :: !s.verify(k, m, []))
  {
    hide ToySigned;
  }

  lemma ToyPeerId(p: PeerId)
    ensures |ToyPeerBytes(p)| == p.key + 3 && ToyPeerBytes(p)[2..] == Unary(p.key)
  {
    hide Unary;
  }
}

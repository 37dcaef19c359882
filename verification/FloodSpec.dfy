/** The flood seen from afar: who holds which transaction from whom, and which copies are on their
    way. A network step either teaches one node one transaction or teaches nobody anything. */
module FloodSpec {
  import opened Types
  import opened Networks

  /** The ids of the transactions that are watched. Nodes file a watched transaction under this id; it is
      None for all the others. */
  type IdOf = RawTransaction -> Option<TxId>

  ghost predicate Watched(idOf: IdOf, t: TxId) {
    exists raw: RawTransaction :: idOf(raw) == Some(t)
  }

  /** `know` are the caches, `flight` what is on its way, `sent` every RPC ever accepted for a link. */
  datatype Flood = Flood(
    know: map<PeerId, map<TxId, PeerId>>,
    flight: map<Link, seq<RpcOut>>,
    sent: map<Link, seq<RpcOut>>)
  {
    ghost predicate Holds(v: PeerId, t: TxId) { v in know && t in know[v] }

    /** The peer a holder first got the transaction from; the author is its own source. */
    function Source(v: PeerId, t: TxId): PeerId
      requires v in know && t in know[v]
    {
      know[v][t]
    }
  }

  ghost predicate IsCopy(idOf: IdOf, m: RpcOut, t: TxId) {
    !m.IsControl() && idOf(m.tx) == Some(t)
  }

  ghost function Copies(idOf: IdOf, s: seq<RpcOut>, t: TxId): nat {
    if s == [] then 0 else Copies(idOf, s[..|s| - 1], t) + if IsCopy(idOf, s[|s| - 1], t) then 1 else 0
  }

  lemma {:induction false} CopiesConcat(idOf: IdOf, a: seq<RpcOut>, b: seq<RpcOut>, t: TxId)
    ensures Copies(idOf, a + b, t) == Copies(idOf, a, t) + Copies(idOf, b, t)
  {
    if b == [] {
      assert a + b == a;
    } else {
      CopiesConcat(idOf, a, b[..|b| - 1], t);
      assert (a + b)[..|a + b| - 1] == a + b[..|b| - 1];
    }
  }

  lemma CopiesOne(idOf: IdOf, m: RpcOut, t: TxId)
    ensures Copies(idOf, [m], t) == if IsCopy(idOf, m, t) then 1 else 0
  {
    assert [m][..0] == [];
  }

  lemma {:induction false} NoCopies(idOf: IdOf, s: seq<RpcOut>, t: TxId)
    ensures Copies(idOf, s, t) == 0 <==> forall m :: m in s ==> !IsCopy(idOf, m, t)
  {
    if s != [] {
      var k := |s| - 1;
      assert s == s[..k] + [s[k]];
      NoCopies(idOf, s[..k], t);
    }
  }

  // ---- The invariant ----

  /** A copy on a link never goes back to the sender's source nor to the author, who holds it. */
  ghost predicate CopyFits(a: Flood, l: Link, m: RpcOut, t: TxId)
    requires !m.IsControl()
  {
    && a.Holds(l.from, t) && a.Source(l.from, t) != l.to
    && m.tx.from != l.to && a.Holds(m.tx.from, t) && a.Source(m.tx.from, t) == m.tx.from
  }

  /** At most one copy of each transaction, and each of them fits. */
  ghost predicate LinkFits(idOf: IdOf, a: Flood, l: Link, s: seq<RpcOut>) {
    && (forall m, t {:trigger IsCopy(idOf, m, t)} :: m in s && IsCopy(idOf, m, t) ==> CopyFits(a, l, m, t))
    && (forall t {:trigger Copies(idOf, s, t)} :: Copies(idOf, s, t) <= 1)
  }

  /** A HaveTx travels between two holders neither of which has the other as its source. */
  ghost predicate HaveTxFits(a: Flood, l: Link, t: TxId) {
    && a.Holds(l.from, t) && a.Source(l.from, t) != l.to
    && a.Holds(l.to, t) && a.Source(l.to, t) != l.from
  }

  ghost predicate HaveTxsFit(idOf: IdOf, a: Flood, l: Link, s: seq<RpcOut>) {
    forall m :: m in s && m.HaveTx? && Watched(idOf, m.id) ==> HaveTxFits(a, l, m.id)
  }

  /** A source holds what it gave, and gives it no second time. */
  ghost predicate SourceFits(idOf: IdOf, a: Flood, v: PeerId, t: TxId)
    requires a.Holds(v, t)
  {
    var w := a.Source(v, t);
    if w == v then exists raw: RawTransaction :: idOf(raw) == Some(t) && raw.from == v
    else a.Holds(w, t) && Link(w, v) in a.flight && Link(w, v) in a.sent
         && Copies(idOf, a.flight[Link(w, v)], t) == 0 && Copies(idOf, a.sent[Link(w, v)], t) >= 1
  }

  /** What is on its way has been sent. */
  ghost predicate SentFirst(idOf: IdOf, s: seq<RpcOut>, sent: seq<RpcOut>) {
    forall t {:trigger Copies(idOf, s, t)} :: Copies(idOf, s, t) <= Copies(idOf, sent, t)
  }

  /** Following sources from `v` reaches, in `k` steps, a node that is its own source. */
  ghost predicate Rooted(a: Flood, v: PeerId, t: TxId, k: nat)
    decreases k
  {
    a.Holds(v, t) && if k == 0 then a.Source(v, t) == v else a.Source(v, t) != v && Rooted(a, a.Source(v, t), t, k - 1)
  }

  ghost predicate IsRooted(a: Flood, v: PeerId, t: TxId) {
    exists k: nat :: Rooted(a, v, t, k)
  }

  ghost predicate FloodInvariant(idOf: IdOf, a: Flood) {
    && a.sent.Keys == a.flight.Keys
    && (forall l :: l in a.flight ==>
          && LinkFits(idOf, a, l, a.flight[l]) && LinkFits(idOf, a, l, a.sent[l])
          && HaveTxsFit(idOf, a, l, a.flight[l]) && SentFirst(idOf, a.flight[l], a.sent[l]))
    && (forall v, t {:trigger a.Holds(v, t)} :: a.Holds(v, t) && Watched(idOf, t) ==>
          SourceFits(idOf, a, v, t) && IsRooted(a, v, t))
  }

  // ---- The two kinds of steps ----

  /** No copy is added to a link. */
  ghost predicate NoMore(idOf: IdOf, s: seq<RpcOut>, s': seq<RpcOut>) {
    && (forall m :: m in s' && !m.IsControl() && idOf(m.tx).Some? ==> m in s)
    && (forall t {:trigger Copies(idOf, s', t)} :: Copies(idOf, s', t) <= Copies(idOf, s, t))
  }

  /** The record of a link only grows, and what it gains covers what the link gains. */
  ghost predicate Recorded(idOf: IdOf, s: seq<RpcOut>, s': seq<RpcOut>, sent: seq<RpcOut>, sent': seq<RpcOut>) {
    forall t {:trigger Copies(idOf, s', t)} {:trigger Copies(idOf, sent', t)} ::
      && Copies(idOf, sent, t) <= Copies(idOf, sent', t)
      && Copies(idOf, s', t) + Copies(idOf, sent, t) <= Copies(idOf, s, t) + Copies(idOf, sent', t)
  }

  /** Of the watched transactions the same nodes hold the same from the same sources. */
  ghost predicate SameKnow(idOf: IdOf, a: Flood, a': Flood) {
    && a'.know.Keys == a.know.Keys
    && forall v, t :: Watched(idOf, t) ==>
         (a'.Holds(v, t) <==> a.Holds(v, t)) && (a.Holds(v, t) ==> a'.Source(v, t) == a.Source(v, t))
  }

  ghost predicate Quiet(idOf: IdOf, a: Flood, a': Flood) {
    && SameKnow(idOf, a, a') && a'.flight.Keys == a.flight.Keys && a'.sent.Keys == a.sent.Keys
    && (forall l :: l in a.flight && l in a.sent ==>
          && NoMore(idOf, a.flight[l], a'.flight[l]) && NoMore(idOf, a.sent[l], a'.sent[l])
          && Recorded(idOf, a.flight[l], a'.flight[l], a.sent[l], a'.sent[l])
          && forall m :: m in a'.flight[l] && m.HaveTx? && Watched(idOf, m.id) ==>
               m in a.flight[l] || HaveTxFits(a, l, m.id))
  }

  /** At most one copy of `raw`, which is transaction `t`, is added. */
  ghost predicate OneMore(idOf: IdOf, s: seq<RpcOut>, s': seq<RpcOut>, raw: RawTransaction, t: TxId) {
    && (forall m :: m in s' && !m.IsControl() && idOf(m.tx).Some? ==> m in s || m.tx == raw)
    && (forall x {:trigger Copies(idOf, s', x)} :: Copies(idOf, s', x) <= Copies(idOf, s, x) + if x == t then 1 else 0)
  }

  /** `u` takes up `t` from `s` and passes it on, not to `s` and not to the author. If `s` is another
      node, a copy comes off the link from it. */
  ghost predicate Learns(idOf: IdOf, a: Flood, a': Flood, u: PeerId, s: PeerId, raw: RawTransaction, t: TxId) {
    && a'.flight.Keys == a.flight.Keys && a'.sent.Keys == a.sent.Keys
    && idOf(raw) == Some(t) && u in a.know && !a.Holds(u, t)
    && a'.know.Keys == a.know.Keys
    && (forall v, x :: Watched(idOf, x) ==> (a'.Holds(v, x) <==> a.Holds(v, x) || (v == u && x == t)))
    && (forall v, x :: Watched(idOf, x) && a.Holds(v, x) ==> a'.Source(v, x) == a.Source(v, x))
    && a'.Holds(u, t) && a'.Source(u, t) == s
    && (if s == u then raw.from == u
        else Link(s, u) in a.flight && (exists m :: m in a.flight[Link(s, u)] && !m.IsControl() && m.tx == raw)
             && Copies(idOf, a'.flight[Link(s, u)], t) + 1 <= Copies(idOf, a.flight[Link(s, u)], t))
    && (forall l :: l in a.flight && l in a.sent ==>
          && (if l.from == u && l.to != s && l.to != raw.from
              then OneMore(idOf, a.flight[l], a'.flight[l], raw, t) && OneMore(idOf, a.sent[l], a'.sent[l], raw, t)
              else NoMore(idOf, a.flight[l], a'.flight[l]) && NoMore(idOf, a.sent[l], a'.sent[l]))
          && Recorded(idOf, a.flight[l], a'.flight[l], a.sent[l], a'.sent[l])
          && forall m :: m in a'.flight[l] && m.HaveTx? && Watched(idOf, m.id) ==> m in a.flight[l])
  }

  // ---- Preservation ----

  /** The holders of `t` still hold it from the same sources. */
  ghost predicate StillHold(a: Flood, a': Flood, t: TxId) {
    forall w :: a.Holds(w, t) ==> a'.Holds(w, t) && a'.Source(w, t) == a.Source(w, t)
  }

  lemma {:induction false} RootedGrows(a: Flood, a': Flood, v: PeerId, t: TxId, k: nat)
    requires Rooted(a, v, t, k) && StillHold(a, a', t)
    ensures Rooted(a', v, t, k)
    decreases k
  {
    if k > 0 {
      RootedGrows(a, a', a.Source(v, t), t, k - 1);
    }
  }

  lemma CopyIsWatched(idOf: IdOf, m: RpcOut, t: TxId)
    requires IsCopy(idOf, m, t)
    ensures Watched(idOf, t) && idOf(m.tx).Some?
  {}

  lemma QuietLinkFits(idOf: IdOf, a: Flood, a': Flood, l: Link, s: seq<RpcOut>, s': seq<RpcOut>)
    requires LinkFits(idOf, a, l, s) && NoMore(idOf, s, s')
    requires forall x :: Watched(idOf, x) ==> StillHold(a, a', x)
    ensures LinkFits(idOf, a', l, s')
  {
    hide Copies;
    forall m, t {:trigger IsCopy(idOf, m, t)} | m in s' && IsCopy(idOf, m, t)
      ensures CopyFits(a', l, m, t)
    {
      CopyIsWatched(idOf, m, t);
      assert IsCopy(idOf, m, t) && m in s;
    }
    forall t
      ensures Copies(idOf, s', t) <= 1
    {
      assert Copies(idOf, s, t) <= 1;
    }
  }

  lemma RecordedKeeps(idOf: IdOf, s: seq<RpcOut>, s': seq<RpcOut>, sent: seq<RpcOut>, sent': seq<RpcOut>)
    requires SentFirst(idOf, s, sent) && Recorded(idOf, s, s', sent, sent')
    ensures SentFirst(idOf, s', sent')
  {
    hide Copies;
    forall t
      ensures Copies(idOf, s', t) <= Copies(idOf, sent', t)
    {
      assert Copies(idOf, s, t) <= Copies(idOf, sent, t);
    }
  }

  lemma QuietKeeps(idOf: IdOf, a: Flood, a': Flood)
    requires FloodInvariant(idOf, a) && Quiet(idOf, a, a')
    ensures FloodInvariant(idOf, a')
  {
    hide LinkFits, NoMore, Copies, Rooted, HaveTxFits, SentFirst, Recorded;
    assert forall x :: Watched(idOf, x) ==> StillHold(a, a', x);
    forall l | l in a'.flight
      ensures LinkFits(idOf, a', l, a'.flight[l]) && LinkFits(idOf, a', l, a'.sent[l])
      ensures HaveTxsFit(idOf, a', l, a'.flight[l])
           && SentFirst(idOf, a'.flight[l], a'.sent[l])
    {
      RecordedKeeps(idOf, a.flight[l], a'.flight[l], a.sent[l], a'.sent[l]);
      QuietLinkFits(idOf, a, a', l, a.flight[l], a'.flight[l]);
      QuietLinkFits(idOf, a, a', l, a.sent[l], a'.sent[l]);
      QuietHaveTxs(idOf, a, a', l);
    }
    forall v, t | a'.Holds(v, t) && Watched(idOf, t)
      ensures SourceFits(idOf, a', v, t) && IsRooted(a', v, t)
    {
      assert a.Holds(v, t);
      QuietSource(idOf, a, a', v, t);
    }
  }

  lemma QuietHaveTxs(idOf: IdOf, a: Flood, a': Flood, l: Link)
    requires Quiet(idOf, a, a') && l in a.flight && l in a.sent && HaveTxsFit(idOf, a, l, a.flight[l])
    ensures HaveTxsFit(idOf, a', l, a'.flight[l])
  {
    hide NoMore;
  }

  lemma QuietSource(idOf: IdOf, a: Flood, a': Flood, v: PeerId, t: TxId)
    requires Quiet(idOf, a, a') && a.sent.Keys == a.flight.Keys && a.Holds(v, t) && SourceFits(idOf, a, v, t)
    requires IsRooted(a, v, t) && Watched(idOf, t)
    ensures a'.Holds(v, t) && SourceFits(idOf, a', v, t) && IsRooted(a', v, t)
  {
    hide Copies, Rooted, HaveTxFits;
    var k: nat :| Rooted(a, v, t, k);
    RootedGrows(a, a', v, t, k);
    var w := a.Source(v, t);
    if w != v {
      assert NoMore(idOf, a.flight[Link(w, v)], a'.flight[Link(w, v)]);
      assert Copies(idOf, a'.flight[Link(w, v)], t) <= Copies(idOf, a.flight[Link(w, v)], t);
      assert Recorded(idOf, a.flight[Link(w, v)], a'.flight[Link(w, v)], a.sent[Link(w, v)], a'.sent[Link(w, v)]);
    }
  }

  lemma LearnsGrows(idOf: IdOf, a: Flood, a': Flood, u: PeerId, s: PeerId, raw: RawTransaction, t: TxId)
    requires Learns(idOf, a, a', u, s, raw, t)
    ensures forall x :: Watched(idOf, x) ==> StillHold(a, a', x)
    ensures forall w, x :: Watched(idOf, x) && a'.Holds(w, x) ==> a.Holds(w, x) || (w == u && x == t)
    ensures Watched(idOf, t) && a'.Holds(u, t) && a'.Source(u, t) == s
  {
    hide NoMore, OneMore, Copies;
  }

  /** Before `u` holds `t`, no link out of `u` carries a copy of it. */
  lemma NothingFromIgnorant(idOf: IdOf, a: Flood, l: Link, s: seq<RpcOut>, t: TxId)
    requires LinkFits(idOf, a, l, s) && !a.Holds(l.from, t)
    ensures Copies(idOf, s, t) == 0
  {
    hide Copies;
    NoCopies(idOf, s, t);
  }

  /** The author of a transaction being taken up holds it afterwards, as its own source. */
  lemma AuthorHolds(idOf: IdOf, a: Flood, a': Flood, u: PeerId, s: PeerId, raw: RawTransaction, t: TxId)
    requires FloodInvariant(idOf, a) && Learns(idOf, a, a', u, s, raw, t)
    ensures a'.Holds(raw.from, t) && a'.Source(raw.from, t) == raw.from
    ensures s != u ==> a.Holds(s, t) && a.Source(s, t) != u && raw.from != u
  {
    hide NoMore, OneMore, Copies, HaveTxsFit;
    LearnsGrows(idOf, a, a', u, s, raw, t);
    if s != u {
      var m :| m in a.flight[Link(s, u)] && !m.IsControl() && m.tx == raw;
      assert LinkFits(idOf, a, Link(s, u), a.flight[Link(s, u)]);
      assert IsCopy(idOf, m, t);
      assert CopyFits(a, Link(s, u), m, t);
    }
  }

  lemma LearnsLinkFits(idOf: IdOf, a: Flood, a': Flood, u: PeerId, s: PeerId, raw: RawTransaction, t: TxId, l: Link,
                       q: seq<RpcOut>, q': seq<RpcOut>)
    requires LinkFits(idOf, a, l, q) && OneMore(idOf, q, q', raw, t) && idOf(raw) == Some(t)
    requires l.from == u && l.to != s && l.to != raw.from && !a.Holds(u, t)
    requires forall x :: Watched(idOf, x) ==> StillHold(a, a', x)
    requires a'.Holds(u, t) && a'.Source(u, t) == s && a'.Holds(raw.from, t) && a'.Source(raw.from, t) == raw.from
    ensures LinkFits(idOf, a', l, q')
  {
    hide Copies;
    NothingFromIgnorant(idOf, a, l, q, t);
    forall m, x {:trigger IsCopy(idOf, m, x)} | m in q' && IsCopy(idOf, m, x)
      ensures CopyFits(a', l, m, x)
    {
      CopyIsWatched(idOf, m, x);
    }
    forall x
      ensures Copies(idOf, q', x) <= 1
    {
      assert Copies(idOf, q, x) <= 1;
    }
  }

  lemma LearnsLinks(idOf: IdOf, a: Flood, a': Flood, u: PeerId, s: PeerId, raw: RawTransaction, t: TxId, l: Link)
    requires FloodInvariant(idOf, a) && Learns(idOf, a, a', u, s, raw, t) && l in a.flight
    ensures LinkFits(idOf, a', l, a'.flight[l]) && LinkFits(idOf, a', l, a'.sent[l])
  {
    hide LinkFits, NoMore, OneMore, Copies, HaveTxsFit, Rooted, SourceFits;
    LearnsGrows(idOf, a, a', u, s, raw, t);
    AuthorHolds(idOf, a, a', u, s, raw, t);
    if l.from == u && l.to != s && l.to != raw.from {
      LearnsLinkFits(idOf, a, a', u, s, raw, t, l, a.flight[l], a'.flight[l]);
      LearnsLinkFits(idOf, a, a', u, s, raw, t, l, a.sent[l], a'.sent[l]);
    } else {
      QuietLinkFits(idOf, a, a', l, a.flight[l], a'.flight[l]);
      QuietLinkFits(idOf, a, a', l, a.sent[l], a'.sent[l]);
    }
  }

  lemma LearnsHaveTxs(idOf: IdOf, a: Flood, a': Flood, u: PeerId, s: PeerId, raw: RawTransaction, t: TxId, l: Link)
    requires Learns(idOf, a, a', u, s, raw, t) && l in a.flight && l in a.sent && HaveTxsFit(idOf, a, l, a.flight[l])
    ensures HaveTxsFit(idOf, a', l, a'.flight[l])
  {
    hide NoMore, OneMore, Copies;
    LearnsGrows(idOf, a, a', u, s, raw, t);
    forall m | m in a'.flight[l] && m.HaveTx? && Watched(idOf, m.id)
      ensures HaveTxFits(a', l, m.id)
    {
      assert HaveTxFits(a, l, m.id);
    }
  }

  /** The holders there were keep their places: none of them has the new holder as its source. */
  lemma LearnsOldSource(idOf: IdOf, a: Flood, a': Flood, u: PeerId, s: PeerId, raw: RawTransaction, t: TxId, v: PeerId,
                        x: TxId)
    requires FloodInvariant(idOf, a) && Learns(idOf, a, a', u, s, raw, t) && a.Holds(v, x) && Watched(idOf, x)
    ensures a'.Holds(v, x) && SourceFits(idOf, a', v, x) && IsRooted(a', v, x)
  {
    hide Copies, HaveTxsFit, LinkFits, Rooted;
    LearnsGrows(idOf, a, a', u, s, raw, t);
    assert SourceFits(idOf, a, v, x) && IsRooted(a, v, x);
    var k: nat :| Rooted(a, v, x, k);
    RootedGrows(a, a', v, x, k);
    var w := a.Source(v, x);
    if w != v {
      var l := Link(w, v);
      assert Recorded(idOf, a.flight[l], a'.flight[l], a.sent[l], a'.sent[l]);
      if l.from == u && l.to != s && l.to != raw.from {
        assert OneMore(idOf, a.flight[l], a'.flight[l], raw, t);
        assert x != t;
        assert Copies(idOf, a'.flight[l], x) <= Copies(idOf, a.flight[l], x);
      } else {
        assert NoMore(idOf, a.flight[l], a'.flight[l]);
        assert Copies(idOf, a'.flight[l], x) <= Copies(idOf, a.flight[l], x);
      }
    }
  }

  lemma LearnsNewSource(idOf: IdOf, a: Flood, a': Flood, u: PeerId, s: PeerId, raw: RawTransaction, t: TxId)
    requires FloodInvariant(idOf, a) && Learns(idOf, a, a', u, s, raw, t)
    ensures a'.Holds(u, t) && SourceFits(idOf, a', u, t) && IsRooted(a', u, t)
  {
    hide Copies, HaveTxsFit, NoMore, OneMore;
    LearnsGrows(idOf, a, a', u, s, raw, t);
    AuthorHolds(idOf, a, a', u, s, raw, t);
    if s == u {
      assert Rooted(a', u, t, 0);
    } else {
      assert LinkFits(idOf, a, Link(s, u), a.flight[Link(s, u)]);
      assert Copies(idOf, a.flight[Link(s, u)], t) <= 1;
      assert SentFirst(idOf, a.flight[Link(s, u)], a.sent[Link(s, u)]);
      assert Recorded(idOf, a.flight[Link(s, u)], a'.flight[Link(s, u)], a.sent[Link(s, u)], a'.sent[Link(s, u)]);
      assert IsRooted(a, s, t);
      var k: nat :| Rooted(a, s, t, k);
      RootedGrows(a, a', s, t, k);
      assert Rooted(a', u, t, k + 1);
    }
  }

  lemma LearnsKeeps(idOf: IdOf, a: Flood, a': Flood, u: PeerId, s: PeerId, raw: RawTransaction, t: TxId)
    requires FloodInvariant(idOf, a) && Learns(idOf, a, a', u, s, raw, t)
    ensures FloodInvariant(idOf, a')
  {
    hide LinkFits, NoMore, OneMore, Copies, HaveTxsFit, Rooted, SourceFits, IsRooted, SentFirst, Recorded;
    LearnsGrows(idOf, a, a', u, s, raw, t);
    forall l | l in a'.flight
      ensures LinkFits(idOf, a', l, a'.flight[l]) && LinkFits(idOf, a', l, a'.sent[l])
      ensures HaveTxsFit(idOf, a', l, a'.flight[l])
           && SentFirst(idOf, a'.flight[l], a'.sent[l])
    {
      RecordedKeeps(idOf, a.flight[l], a'.flight[l], a.sent[l], a'.sent[l]);
      LearnsLinks(idOf, a, a', u, s, raw, t, l);
      LearnsHaveTxs(idOf, a, a', u, s, raw, t, l);
    }
    forall v, x | a'.Holds(v, x) && Watched(idOf, x)
      ensures SourceFits(idOf, a', v, x) && IsRooted(a', v, x)
    {
      if a.Holds(v, x) {
        LearnsOldSource(idOf, a, a', u, s, raw, t, v, x);
      } else {
        LearnsNewSource(idOf, a, a', u, s, raw, t);
      }
    }
  }
}

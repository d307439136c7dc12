/**
 What one node keeps about its sessions and its history, whatever arrives: every session is
 bound to one ephemeral of its own, every counter opened or sealed under it is accounted for,
 and nothing is ever opened or sealed twice.
 */
module Authenticity {
  import opened Base
  import opened Replay
  import opened Seal
  import opened Sessions
  import opened EngineSpec
  import opened Nodes

  /** The ephemeral this node contributed to the session. */
  function Own(s: Session): Eph {
    if s.initiator then s.Hs().e else if s.stage.Transport? then s.stage.key.f else s.Hs().e
  }

  /** The ephemeral contributed by the side that seals in this direction. */
  function SealerEph(k: PairKey, byInitiator: bool): Eph {
    if byInitiator then k.hs.e else k.f
  }

  function SealerStatic(k: PairKey, byInitiator: bool): StaticKey {
    if byInitiator then k.hs.initStatic else k.hs.respStatic
  }

  function SealerId(k: PairKey, byInitiator: bool): NodeId {
    if byInitiator then k.hs.initId else k.hs.respId
  }

  predicate OursBy(h: History, pub: StaticKey, e: Eph) {
    e.owner == pub && e.idx < |h.drawn|
  }

  /** The session is with `p` under the node's own identity, and a view vouched for its key. */
  predicate Bound(c: Core, h: History, p: NodeId, s: Session) {
    && (!s.initiator ==> s.IsReady())
    && s.Hs().uuid == c.uuid
    && (if s.initiator then s.Hs().initId == c.id && s.Hs().respId == p && s.Hs().initStatic == c.pub
        else s.Hs().initId == p && s.Hs().respId == c.id && s.Hs().respStatic == c.pub)
    && OursBy(h, c.pub, Own(s)) && h.drawn[Own(s).idx] == p
    && (p, s.PeerStatic()) in h.vouched
  }

  /** Everything ever sealed under the session's ephemeral carries its key and an earlier nonce. */
  predicate TracksSent(h: History, s: Session) {
    forall f <- h.log :: f.Data? && f.ct.Sealed? && SealerEph(f.ct.key, f.ct.byInitiator) == Own(s) ==>
      && s.IsReady() && f.ct.key == s.stage.key && f.ct.byInitiator == s.initiator
      && f.ct.nonce < s.stage.sendNonce
  }

  /** Everything ever opened under the session's ephemeral carries its key and a committed counter. */
  predicate TracksOpened(h: History, s: Session) {
    forall o <- h.decrypted :: SealerEph(o.key, !o.byInitiator) == Own(s) ==>
      && s.IsReady() && o.key == s.stage.key && o.byInitiator == !s.initiator && o.ctr in s.seen
  }

  predicate SessionOk(c: Core, h: History, p: NodeId, s: Session) {
    Bound(c, h, p, s) && TracksSent(h, s) && TracksOpened(h, s)
  }

  predicate SlotOk(c: Core, h: History, p: NodeId, s: Option<Session>) {
    s.Some? ==> SessionOk(c, h, p, s.value)
  }

  function Third(q: PeerSessions): Option<Session> {
    if q.previous.Some? then Some(q.previous.value.0) else None
  }

  predicate Apart(s: Option<Session>, t: Option<Session>) {
    s.Some? && t.Some? ==> Own(s.value) != Own(t.value)
  }

  predicate PeerOk(c: Core, h: History, p: NodeId, q: PeerSessions) {
    && SlotOk(c, h, p, q.current) && SlotOk(c, h, p, q.next) && SlotOk(c, h, p, Third(q))
    && Apart(q.current, q.next) && Apart(q.current, Third(q)) && Apart(q.next, Third(q))
  }

  /** A frame sealed here, by this identity, under one of our own ephemerals. */
  predicate LogEntryOk(c: Core, h: History, f: Frame) {
    && f.Data? && f.ct.Sealed? && f.ctr == f.ct.nonce
    && f.src == c.id && f.src == SealerId(f.ct.key, f.ct.byInitiator)
    && f.dst == SealerId(f.ct.key, !f.ct.byInitiator)
    && SealerStatic(f.ct.key, f.ct.byInitiator) == c.pub
    && OursBy(h, c.pub, SealerEph(f.ct.key, f.ct.byInitiator))
  }

  /** A packet opened here: attributed to the other end of its key, which a view vouched for. */
  predicate OpenedOk(c: Core, h: History, o: Opened) {
    && o.src == SealerId(o.key, o.byInitiator) && c.id == SealerId(o.key, !o.byInitiator)
    && (o.src, SealerStatic(o.key, o.byInitiator)) in h.vouched
    && SealerStatic(o.key, !o.byInitiator) == c.pub
    && OursBy(h, c.pub, SealerEph(o.key, !o.byInitiator))
  }

  predicate SameNonce(f: Frame, g: Frame) {
    && f.Data? && g.Data? && f.ct.Sealed? && g.ct.Sealed?
    && f.ct.key == g.ct.key && f.ct.byInitiator == g.ct.byInitiator && f.ct.nonce == g.ct.nonce
  }

  predicate SameCounter(o: Opened, q: Opened) {
    o.key == q.key && o.byInitiator == q.byInitiator && o.ctr == q.ctr
  }

  /** No key seals two frames in one direction under one nonce. */
  predicate NoncesUnique(log: set<Frame>) {
    forall f, g :: f in log && g in log && SameNonce(f, g) ==> f == g
  }

  /** No counter of a key and direction was opened with two outcomes. */
  predicate OpenedOnce(opens: set<Opened>) {
    forall o, q :: o in opens && q in opens && SameCounter(o, q) ==> o == q
  }

  predicate KeysVouched(c: Core, h: History) {
    forall m <- c.peers :: c.peers[m].pubkey.Some? ==> (m, c.peers[m].pubkey.value) in h.vouched
  }

  predicate HistoryOk(c: Core, h: History) {
    && |h.drawn| == c.nextEph && KeysVouched(c, h)
    && (forall f <- h.log :: LogEntryOk(c, h, f)) && NoncesUnique(h.log)
    && (forall o <- h.decrypted :: OpenedOk(c, h, o)) && OpenedOnce(h.decrypted)
  }

  predicate SessionsOk(c: Core, h: History) {
    forall p <- c.table.sessions :: PeerOk(c, h, p, c.table.sessions[p])
  }

  predicate CoreInv(c: Core, h: History) {
    HistoryOk(c, h) && SessionsOk(c, h)
  }

  predicate SameIdentity(c: Core, d: Core) {
    c.id == d.id && c.pub == d.pub && c.uuid == d.uuid && c.peers == d.peers
  }

  // ---------- the moves critical sections are made of ----------

  /** Only the table's queues, watermarks and bookkeeping moved, or sessions were dropped. */
  lemma Shrinks(c: Core, h: History, d: Core)
    requires CoreInv(c, h) && SameIdentity(c, d) && d.nextEph == c.nextEph
    requires forall p <- d.table.sessions :: p in c.table.sessions && Within(c.table.sessions[p], d.table.sessions[p])
    ensures CoreInv(d, h)
  {
    forall p | p in d.table.sessions
      ensures PeerOk(d, h, p, d.table.sessions[p])
    {
      WithinOk(c, h, p, c.table.sessions[p], d, d.table.sessions[p]);
    }
  }

  lemma WithinOk(c: Core, h: History, p: NodeId, q: PeerSessions, d: Core, r: PeerSessions)
    requires PeerOk(c, h, p, q) && SameIdentity(c, d) && Within(q, r)
    ensures PeerOk(d, h, p, r)
  {
  }

  predicate From(p: PeerSessions, s: Option<Session>) {
    s.None? || s == p.current || s == p.next || s == Third(p)
  }

  /** `q` holds sessions of `p` only, each in one slot. */
  predicate Within(p: PeerSessions, q: PeerSessions) {
    && From(p, q.current) && From(p, q.next) && From(p, Third(q))
    && (q.current.Some? ==> q.current != q.next && q.current != Third(q))
    && (q.next.Some? ==> q.next != Third(q))
  }

  /** A peer whose slots are all sound has no session in two of them. */
  lemma NoSharing(c: Core, h: History, p: NodeId, q: PeerSessions)
    requires PeerOk(c, h, p, q)
    ensures Within(q, q)
    ensures forall now :: Within(q, q.Promote(now))
    ensures forall now :: Within(q, q.Expire(now))
    ensures forall want :: Within(q, q.Keep(want))
  {
  }

  lemma SetSlots(c: Core, h: History, peer: NodeId, q: PeerSessions)
    requires CoreInv(c, h) && PeerOk(c, h, peer, q)
    ensures CoreInv(c.WithPeer(peer, q), h)
  {
    var d := c.WithPeer(peer, q);
    forall p | p in d.table.sessions
      ensures PeerOk(d, h, p, d.table.sessions[p])
    {
      assert p != peer ==> PeerOk(c, h, p, c.table.sessions[p]);
    }
  }

  lemma OfIsOk(c: Core, h: History, peer: NodeId)
    requires CoreInv(c, h)
    ensures PeerOk(c, h, peer, c.table.Of(peer))
  {
    if peer in c.table.sessions {
      assert PeerOk(c, h, peer, c.table.sessions[peer]);
    }
  }

  /** More sealed frames, all under another ephemeral: the session still accounts for its own. */
  lemma LogGrows(c: Core, h: History, p: NodeId, s: Session, f: Frame)
    requires SessionOk(c, h, p, s)
    requires f.Data? && f.ct.Sealed? && SealerEph(f.ct.key, f.ct.byInitiator) != Own(s)
    ensures SessionOk(c, h.(log := h.log + {f}), p, s)
  {
  }

  lemma PeerLogGrows(c: Core, h: History, p: NodeId, q: PeerSessions, f: Frame)
    requires PeerOk(c, h, p, q)
    requires f.Data? && f.ct.Sealed?
    requires var e := SealerEph(f.ct.key, f.ct.byInitiator);
             e.owner == c.pub && e.idx < |h.drawn| && h.drawn[e.idx] != p
    ensures PeerOk(c, h.(log := h.log + {f}), p, q)
  {
    if q.current.Some? { LogGrows(c, h, p, q.current.value, f); }
    if q.next.Some? { LogGrows(c, h, p, q.next.value, f); }
    if q.previous.Some? { LogGrows(c, h, p, q.previous.value.0, f); }
  }

  /** The session that seals has sealed nothing under this nonce before. */
  lemma SealIsNew(c: Core, h: History, peer: NodeId, s: Session, payload: Packet)
    requires HistoryOk(c, h) && SessionOk(c, h, peer, s) && s.IsReady()
    ensures var (t, n, ct) := s.Seal(payload);
            var f := Data(c.id, peer, n, ct);
            HistoryOk(c, h.(log := h.log + {f})) && SessionOk(c, h.(log := h.log + {f}), peer, t)
  {
    var (t, n, ct) := s.Seal(payload);
    var f := Data(c.id, peer, n, ct);
    var g := h.(log := h.log + {f});
    assert LogEntryOk(c, g, f);
    forall x | x in h.log
      ensures LogEntryOk(c, g, x)
    {
      assert LogEntryOk(c, h, x);
    }
    assert NoncesUnique(g.log) by {
      forall x | x in h.log && x.Data? && x.ct.Sealed? && x.ct.key == ct.key && x.ct.byInitiator == ct.byInitiator
        ensures x.ct.nonce != n
      {
        assert SealerEph(x.ct.key, x.ct.byInitiator) == Own(s);
      }
    }
    forall o | o in g.decrypted
      ensures OpenedOk(c, g, o)
    {
      assert OpenedOk(c, h, o);
    }
  }

  lemma SealKeeps(c: Core, h: History, peer: NodeId, payload: Packet)
    requires CoreInv(c, h) && c.table.IsReady(peer)
    ensures var (d, f) := c.SealTo(peer, payload);
            && CoreInv(d, h.(log := h.log + {f})) && SameIdentity(c, d) && d.nextEph == c.nextEph
            && d.table.IsReady(peer) && f.Data?
  {
    var (d, f) := c.SealTo(peer, payload);
    var q := c.table.Of(peer);
    OfIsOk(c, h, peer);
    SealIsNew(c, h, peer, q.current.value, payload);
    var g := h.(log := h.log + {f});
    if q.next.Some? { LogGrows(c, h, peer, q.next.value, f); }
    if q.previous.Some? { LogGrows(c, h, peer, q.previous.value.0, f); }
    assert PeerOk(c, g, peer, d.table.Of(peer));
    forall p | p in d.table.sessions
      ensures PeerOk(d, g, p, d.table.sessions[p])
    {
      if p != peer {
        PeerLogGrows(c, h, p, c.table.sessions[p], f);
      }
    }
  }

  /** A fresh ephemeral for `peer`: nothing was ever sealed or opened under it. */
  lemma DrawKeeps(c: Core, h: History, peer: NodeId)
    requires CoreInv(c, h)
    ensures CoreInv(c.DrawEph(), h.(drawn := h.drawn + [peer]))
  {
    var d, g := c.DrawEph(), h.(drawn := h.drawn + [peer]);
    forall f | f in g.log
      ensures LogEntryOk(d, g, f)
    {
      assert LogEntryOk(c, h, f);
    }
    forall o | o in g.decrypted
      ensures OpenedOk(d, g, o)
    {
      assert OpenedOk(c, h, o);
    }
    forall p | p in d.table.sessions
      ensures PeerOk(d, g, p, d.table.sessions[p])
    {
      assert PeerOk(c, h, p, c.table.sessions[p]);
    }
  }

  /** A session built on the ephemeral just drawn. */
  lemma FreshSessionOk(c: Core, h: History, peer: NodeId, s: Session)
    requires CoreInv(c, h)
    requires Own(s) == c.Fresh() && Bound(c, h.(drawn := h.drawn + [peer]), peer, s)
    ensures SessionOk(c.DrawEph(), h.(drawn := h.drawn + [peer]), peer, s)
    ensures forall q: Session :: SessionOk(c, h, peer, q) ==> Own(q) != Own(s)
  {
    forall f | f in h.log
      ensures SealerEph(f.ct.key, f.ct.byInitiator) != Own(s)
    {
      assert LogEntryOk(c, h, f);
    }
    forall o | o in h.decrypted
      ensures SealerEph(o.key, !o.byInitiator) != Own(s)
    {
      assert OpenedOk(c, h, o);
    }
  }

  /** The reply gives a handshake its key: no other session ever had its ephemeral. */
  lemma FinishOk(c: Core, h: History, peer: NodeId, s: Session, msg: HandshakeMsg)
    requires SessionOk(c, h, peer, s) && s.initiator && s.IsReply(msg)
    ensures SessionOk(c, h, peer, s.Finish(msg)) && Own(s.Finish(msg)) == Own(s)
  {
  }

  // ---------- opening a frame ----------

  /** The window moved: a session with one more counter committed. */
  lemma CommitOk(c: Core, h: History, p: NodeId, s: Session, ctr: nat)
    requires SessionOk(c, h, p, s)
    ensures SessionOk(c, h, p, s.(seen := s.seen + {ctr})) && Own(s.(seen := s.seen + {ctr})) == Own(s)
  {
  }

  /** The session among `q`'s slots that opened the frame. */
  predicate OpenedBy(q: PeerSessions, ctr: nat, ct: Cipher, s: Session) {
    (q.current == Some(s) || q.next == Some(s) || Third(q) == Some(s)) && s.Unseal(ctr, ct).Ok?
  }

  /** Opening leaves sound slots, one of which has now committed the counter. */
  lemma UnsealOk(c: Core, h: History, p: NodeId, q: PeerSessions, ctr: nat, ct: Cipher, now: nat) returns (s: Session)
    requires PeerOk(c, h, p, q) && q.Unseal(ctr, ct, now).Ok?
    ensures OpenedBy(q, ctr, ct, s)
    ensures var (r, v) := q.Unseal(ctr, ct, now).value;
            && ct.Sealed? && v == ct.payload && PeerOk(c, h, p, r)
            && (r.current == Some(s.(seen := s.seen + {ctr})) || Third(r) == Some(s.(seen := s.seen + {ctr})))
  {
    if Ready(q.current) && q.current.value.Unseal(ctr, ct).Ok? {
      s := q.current.value;
    } else if Ready(q.next) && q.next.value.Unseal(ctr, ct).Ok? {
      s := q.next.value;
    } else {
      s := q.previous.value.0;
    }
    CommitOk(c, h, p, s, ctr);
  }

  /** The packet as recorded; the one session that opened it accounts for it, the others are apart. */
  lemma RecordOpened(c: Core, h: History, p: NodeId, q: PeerSessions, s: Session, ctr: nat, ct: Cipher, o: Opened)
    requires CoreInv(c, h) && PeerOk(c, h, p, q) && (q.current == Some(s) || Third(q) == Some(s))
    requires s.IsReady() && ct.Sealed? && ct.key == s.stage.key && ct.byInitiator == !s.initiator && ctr in s.seen
    requires o == Opened(p, ct.key, ct.byInitiator, ctr, ct.payload)
    requires forall x <- h.decrypted :: !SameCounter(x, o)
    requires p in c.table.sessions && c.table.sessions[p] == q
    ensures CoreInv(c, h.(decrypted := h.decrypted + {o}))
  {
    var g := h.(decrypted := h.decrypted + {o});
    assert SealerEph(o.key, !o.byInitiator) == Own(s);
    assert OpenedOk(c, g, o);
    forall x | x in h.log
      ensures LogEntryOk(c, g, x)
    {
      assert LogEntryOk(c, h, x);
    }
    forall x | x in h.decrypted
      ensures OpenedOk(c, g, x)
    {
      assert OpenedOk(c, h, x);
    }
    forall x | x in c.table.sessions
      ensures PeerOk(c, g, x, c.table.sessions[x])
    {
      OtherPeersKeep(c, h, x, c.table.sessions[x], o, p);
    }
  }

  predicate Accounts(t: Option<Session>, o: Opened) {
    t.Some? && Own(t.value) == SealerEph(o.key, !o.byInitiator) ==>
      && t.value.IsReady() && o.key == t.value.stage.key && o.byInitiator == !t.value.initiator
      && o.ctr in t.value.seen
  }

  /** A session under another ephemeral, or already holding the counter, accounts for one more packet. */
  lemma OtherPeersKeep(c: Core, h: History, x: NodeId, q: PeerSessions, o: Opened, p: NodeId)
    requires PeerOk(c, h, x, q)
    requires var e := SealerEph(o.key, !o.byInitiator); e.owner == c.pub && e.idx < |h.drawn| && h.drawn[e.idx] == p
    requires x == p ==> Accounts(q.current, o) && Accounts(q.next, o) && Accounts(Third(q), o)
    ensures PeerOk(c, h.(decrypted := h.decrypted + {o}), x, q)
  {
  }

  /** An opened counter was never opened before: its session would have committed it. */
  lemma OpensOnce(c: Core, h: History, p: NodeId, s: Session, ctr: nat, ct: Cipher)
    requires SessionOk(c, h, p, s) && s.Unseal(ctr, ct).Ok?
    ensures forall x <- h.decrypted :: !(x.key == ct.key && x.byInitiator == ct.byInitiator && x.ctr == ctr)
  {
    forall x | x in h.decrypted && x.key == ct.key && x.byInitiator == ct.byInitiator
      ensures x.ctr != ctr
    {
      assert SealerEph(x.key, !x.byInitiator) == Own(s);
    }
  }

  // ---------- every critical section ----------

  /** A section that ran from `(c, h)` kept everything, its frames and draws recorded. */
  predicate Sound(c: Core, h: History, peer: NodeId, d: Core, fs: seq<Frame>) {
    CoreInv(d, Record(h, peer, d, fs)) && SameIdentity(c, d)
  }

  /** Two sections in a row, at most one of them drawing. */
  lemma Chains(h: History, peer: NodeId, d: Core, fs: seq<Frame>, e: Core, gs: seq<Frame>)
    requires |h.drawn| <= d.nextEph <= |h.drawn| + 1 && e.nextEph == d.nextEph
    ensures Record(Record(h, peer, d, fs), peer, e, gs) == Record(h, peer, e, fs + gs)
    ensures Record(Record(h, peer, d, fs), peer, e, gs) == Record(h, peer, e, gs + fs)
  {
    assert DataIn(fs) + DataIn(gs) == DataIn(fs + gs) == DataIn(gs + fs);
  }

  lemma {:induction false} SealAllSound(c: Core, h: History, peer: NodeId, pkts: seq<Packet>)
    requires CoreInv(c, h) && c.table.IsReady(peer)
    ensures var (d, fs) := c.SealAll(peer, pkts); Sound(c, h, peer, d, fs) && d.nextEph == c.nextEph
    decreases |pkts|
  {
    if pkts == [] {
      assert Record(h, peer, c, []) == h;
    } else {
      var (c1, f) := c.SealTo(peer, pkts[0]);
      SealKeeps(c, h, peer, pkts[0]);
      var h1 := h.(log := h.log + {f});
      SealAllSound(c1, h1, peer, pkts[1..]);
      var (d, fs) := c1.SealAll(peer, pkts[1..]);
      assert DataIn([f]) == {f};
      Chains(h, peer, c1, [f], d, fs);
    }
  }

  /** Bookkeeping, queues or watermarks changed; the sessions did not. */
  lemma Bookkeeping(c: Core, h: History, d: Core)
    requires CoreInv(c, h) && SameIdentity(c, d) && d.nextEph == c.nextEph
    requires forall p <- d.table.sessions ::
               && p in c.table.sessions && c.table.sessions[p].current == d.table.sessions[p].current
               && c.table.sessions[p].next == d.table.sessions[p].next
               && c.table.sessions[p].previous == d.table.sessions[p].previous
    ensures CoreInv(d, h)
  {
    forall p | p in d.table.sessions
      ensures PeerOk(d, h, p, d.table.sessions[p])
    {
      assert PeerOk(c, h, p, c.table.sessions[p]);
    }
  }

  lemma FlushSound(c: Core, h: History, peer: NodeId, now: nat)
    requires CoreInv(c, h)
    ensures var (d, fs) := c.FlushPending(peer, now); Sound(c, h, peer, d, fs) && d.nextEph == c.nextEph
  {
    assert Record(h, peer, c, []) == h;
    if c.table.IsReady(peer) {
      var c1 := c.(table := c.table.DropPending(peer));
      Bookkeeping(c, h, c1);
      SealAllSound(c1, h, peer, c.table.Queued(peer));
      var (d, fs) := c1.SealAll(peer, c.table.Queued(peer));
      Bookkeeping(d, Record(h, peer, d, fs), d.(table := d.table.NoteSent(peer, now)));
    }
  }

  /** Our own handshake toward `peer`, under a key a view vouched for. */
  lemma InitiationOk(c: Core, h: History, peer: NodeId, pk: StaticKey, now: nat)
    requires CoreInv(c, h) && (peer, pk) in h.vouched
    ensures var s := Initiate(c.uuid, c.id, c.pub, peer, pk, c.Fresh(), now);
            var g := h.(drawn := h.drawn + [peer]);
            && CoreInv(c.DrawEph(), g) && SessionOk(c.DrawEph(), g, peer, s)
            && forall q: Session :: SessionOk(c, h, peer, q) ==> Own(q) != Own(s)
  {
    var s := Initiate(c.uuid, c.id, c.pub, peer, pk, c.Fresh(), now);
    FreshSessionOk(c, h, peer, s);
    DrawKeeps(c, h, peer);
  }

  lemma StartRekeySound(c: Core, h: History, peer: NodeId, pk: Option<StaticKey>, now: nat, clock: Tai64n)
    requires CoreInv(c, h) && (pk.Some? ==> (peer, pk.value) in h.vouched)
    ensures var (d, fs) := c.StartRekey(peer, pk, now, clock); Sound(c, h, peer, d, fs)
    ensures c.nextEph <= c.StartRekey(peer, pk, now, clock).0.nextEph <= c.nextEph + 1
    ensures DataIn(c.StartRekey(peer, pk, now, clock).1) == {}
  {
    if pk.None? {
      assert Record(h, peer, c, []) == h;
    } else {
      var (d, fs) := c.StartRekey(peer, pk, now, clock);
      var s := Initiate(c.uuid, c.id, c.pub, peer, pk.value, c.Fresh(), now);
      OfIsOk(c, h, peer);
      InitiationOk(c, h, peer, pk.value, now);
      var g := h.(drawn := h.drawn + [peer]);
      assert Record(h, peer, d, fs) == g;
      OfIsOk(c.DrawEph(), g, peer);
      SetSlots(c.DrawEph(), g, peer, c.table.Of(peer).(next := Some(s)));
      Bookkeeping(c.DrawEph().WithPeer(peer, c.table.Of(peer).(next := Some(s))), g, d);
    }
  }

  lemma StartFirstSound(c: Core, h: History, peer: NodeId, pkt: Packet, pk: StaticKey, now: nat, clock: Tai64n)
    requires CoreInv(c, h) && (peer, pk) in h.vouched && !c.table.IsReady(peer) && !c.table.Has(peer)
    ensures var (d, fs) := c.Outbound(peer, pkt, Some(pk), now, clock); Sound(c, h, peer, d, fs)
  {
    var (d, fs) := c.Outbound(peer, pkt, Some(pk), now, clock);
    var s := Initiate(c.uuid, c.id, c.pub, peer, pk, c.Fresh(), now);
    OfIsOk(c, h, peer);
    InitiationOk(c, h, peer, pk, now);
    var g := h.(drawn := h.drawn + [peer]);
    assert Record(h, peer, d, fs) == g;
    OfIsOk(c.DrawEph(), g, peer);
    var q := c.table.Of(peer).(current := Some(s), next := None);
    SetSlots(c.DrawEph(), g, peer, q);
    Bookkeeping(c.DrawEph().WithPeer(peer, q), g, d);
  }

  /** A packet for a ready session: sealed, then perhaps a rekey started. */
  lemma SendReadySound(c: Core, h: History, peer: NodeId, pkt: Packet, pk: Option<StaticKey>, now: nat, clock: Tai64n)
    requires CoreInv(c, h) && (pk.Some? ==> (peer, pk.value) in h.vouched) && c.table.IsReady(peer)
    ensures var (d, fs) := c.Outbound(peer, pkt, pk, now, clock); Sound(c, h, peer, d, fs)
  {
    var (c1, f) := c.SealTo(peer, pkt);
    SealKeeps(c, h, peer, pkt);
    var c2 := c1.(table := c1.table.NoteSent(peer, now));
    var h2 := h.(log := h.log + {f});
    Bookkeeping(c1, h2, c2);
    assert Record(h, peer, c2, [f]) == h2;
    if c2.table.Of(peer).RekeyDue(now) {
      StartRekeySound(c2, h2, peer, pk, now, clock);
      var (d, fs) := c2.StartRekey(peer, pk, now, clock);
      assert DataIn([f] + fs) == DataIn([f]) + DataIn(fs);
      assert Record(h2, peer, d, fs) == Record(h, peer, d, [f] + fs);
    }
  }

  lemma OutboundSound(c: Core, h: History, peer: NodeId, pkt: Packet, pk: Option<StaticKey>, now: nat, clock: Tai64n)
    requires CoreInv(c, h) && (pk.Some? ==> (peer, pk.value) in h.vouched)
    ensures var (d, fs) := c.Outbound(peer, pkt, pk, now, clock); Sound(c, h, peer, d, fs)
  {
    assert Record(h, peer, c, []) == h;
    if c.table.IsReady(peer) {
      SendReadySound(c, h, peer, pkt, pk, now, clock);
    } else if c.table.Has(peer) {
      Bookkeeping(c, h, c.(table := c.table.Queue(peer, pkt)));
    } else if pk.None? {
      Bookkeeping(c, h, c.(table := c.table.DropPending(peer)));
    } else {
      StartFirstSound(c, h, peer, pkt, pk.value, now, clock);
    }
  }

  lemma {:induction false} QueueAllTouchesOnlyQueues(t: Table, peer: NodeId, pkts: seq<Packet>)
    ensures t.QueueAll(peer, pkts).sessions == t.sessions
    decreases |pkts|
  {
    if pkts != [] {
      QueueAllTouchesOnlyQueues(t.Queue(peer, pkts[0]), peer, pkts[1..]);
    }
  }

  lemma AnswerSound(c: Core, h: History, peer: NodeId, msg: HandshakeMsg, pk: Option<StaticKey>, now: nat,
                    carried: seq<Packet>)
    requires CoreInv(c, h) && (pk.Some? ==> (peer, pk.value) in h.vouched)
    ensures var (d, fs) := c.Answer(peer, msg, pk, now, carried); Sound(c, h, peer, d, fs)
  {
    assert Record(h, peer, c, []) == h;
    if IsInitiation(c.uuid, c.id, c.pub, peer, msg) {
      var s := Respond(msg, peer, c.Fresh(), now);
      var g := h.(drawn := h.drawn + [peer]);
      DrawKeeps(c, h, peer);
      var (d, fs) := c.Answer(peer, msg, pk, now, carried);
      assert Record(h, peer, d, fs) == g;
      if pk == Some(s.PeerStatic()) && c.table.AcceptsTs(peer, s.PeerStatic(), msg.ts) {
        OfIsOk(c, h, peer);
        FreshSessionOk(c, h, peer, s);
        OfIsOk(c.DrawEph(), g, peer);
        var q := c.table.Of(peer).InstallResponder(s);
        SetSlots(c.DrawEph(), g, peer, q);
        var t := c.table.NoteTs(peer, s.PeerStatic(), msg.ts).With(peer, q);
        QueueAllTouchesOnlyQueues(t, peer, carried);
        Bookkeeping(c.DrawEph().WithPeer(peer, q), g, d);
      }
    }
  }

  lemma RemoveSound(c: Core, h: History, peer: NodeId)
    requires CoreInv(c, h)
    ensures CoreInv(c.(table := c.table.Remove(peer)), h)
  {
    Bookkeeping(c, h, c.(table := c.table.Remove(peer)));
  }

  lemma FirstHandshakeSound(c: Core, h: History, peer: NodeId, msg: HandshakeMsg, pk: Option<StaticKey>, now: nat)
    requires CoreInv(c, h) && (pk.Some? ==> (peer, pk.value) in h.vouched)
    ensures var (d, fs) := c.OnFirstHandshake(peer, msg, pk, now); Sound(c, h, peer, d, fs)
  {
    var p := c.table.Of(peer);
    if !p.CurrentInFlight() {
      AnswerSound(c, h, peer, msg, pk, now, []);
    } else if p.current.value.IsReply(msg) {
      OfIsOk(c, h, peer);
      FinishOk(c, h, peer, p.current.value, msg);
      var q := p.(current := Some(p.current.value.Finish(msg)));
      SetSlots(c, h, peer, q);
      FlushSound(c.WithPeer(peer, q), h, peer, now);
    } else if c.id < peer {
      RemoveSound(c, h, peer);
      AnswerSound(c.(table := c.table.Remove(peer)), h, peer, msg, pk, now, c.table.Queued(peer));
    } else {
      assert Record(h, peer, c, []) == h;
    }
  }

  lemma FinishRekeySound(c: Core, h: History, peer: NodeId, msg: HandshakeMsg, now: nat)
    requires CoreInv(c, h) && c.table.Of(peer).NextInFlight() && c.table.Of(peer).next.value.IsReply(msg)
    ensures var (d, fs) := c.FinishRekey(peer, msg, now); Sound(c, h, peer, d, fs)
  {
    var p := c.table.Of(peer);
    OfIsOk(c, h, peer);
    FinishOk(c, h, peer, p.next.value, msg);
    var q := p.(next := Some(p.next.value.Finish(msg))).Promote(now);
    SetSlots(c, h, peer, q);
    var c1 := c.WithPeer(peer, q);
    SealKeeps(c1, h, peer, []);
    var (c2, k) := c1.SealTo(peer, []);
    var h2 := h.(log := h.log + {k});
    var c3 := c2.(table := c2.table.NoteSent(peer, now));
    Bookkeeping(c2, h2, c3);
    FlushSound(c3, h2, peer, now);
    var (d, fs) := c3.FlushPending(peer, now);
    assert Record(h, peer, c3, [k]) == h2;
    Chains(h, peer, c3, [k], d, fs);
  }

  lemma HandshakeSound(c: Core, h: History, peer: NodeId, msg: HandshakeMsg, pk: Option<StaticKey>, now: nat)
    requires CoreInv(c, h) && (pk.Some? ==> (peer, pk.value) in h.vouched)
    ensures var (d, fs) := c.OnHandshake(peer, msg, pk, now); Sound(c, h, peer, d, fs)
  {
    var p := c.table.Of(peer);
    if !p.NextInFlight() {
      FirstHandshakeSound(c, h, peer, msg, pk, now);
    } else if p.next.value.IsReply(msg) {
      FinishRekeySound(c, h, peer, msg, now);
    } else if c.id < peer {
      OfIsOk(c, h, peer);
      SetSlots(c, h, peer, p.(next := None));
      FirstHandshakeSound(c.WithPeer(peer, p.(next := None)), h, peer, msg, pk, now);
    } else {
      assert Record(h, peer, c, []) == h;
    }
  }

  lemma SweepSound(c: Core, h: History, now: nat)
    requires CoreInv(c, h)
    ensures CoreInv(c.ExpireSessions(now), h)
  {
    forall p | p in c.table.sessions
      ensures Within(c.table.sessions[p], c.table.sessions[p].Expire(now))
    {
      NoSharing(c, h, p, c.table.sessions[p]);
    }
    Shrinks(c, h, c.ExpireSessions(now));
  }

  lemma ViewEndSound(c: Core, h: History, s: Sync)
    requires CoreInv(c, h)
    ensures CoreInv(c.SyncEnd(s), h)
  {
    forall p, want | p in c.table.sessions
      ensures Within(c.table.sessions[p], c.table.sessions[p].Keep(want))
    {
      NoSharing(c, h, p, c.table.sessions[p]);
    }
    Shrinks(c, h, c.SyncEnd(s));
  }

  lemma ViewBeginSound(c: Core, h: History, members: Members)
    requires CoreInv(c, h)
    ensures CoreInv(c.SyncBegin(members).0, h.(vouched := h.vouched + Vouched(members)))
  {
    var d, g := c.SyncBegin(members).0, h.(vouched := h.vouched + Vouched(members));
    forall f | f in g.log
      ensures LogEntryOk(d, g, f)
    {
      assert LogEntryOk(c, h, f);
    }
    forall o | o in g.decrypted
      ensures OpenedOk(d, g, o)
    {
      assert OpenedOk(c, h, o);
    }
    forall p | p in d.table.sessions
      ensures PeerOk(d, g, p, d.table.sessions[p])
    {
      assert PeerOk(c, h, p, c.table.sessions[p]);
    }
  }

  /** The frame opened: its session commits the counter, and the packet is new. */
  lemma OpeningSound(c: Core, h: History, src: NodeId, ctr: nat, ct: Cipher, now: nat)
    requires CoreInv(c, h) && src in c.table.sessions && c.table.sessions[src].Unseal(ctr, ct, now).Ok?
    ensures var (r, v) := c.table.sessions[src].Unseal(ctr, ct, now).value;
            && ct.Sealed? && v == ct.payload && ct.nonce == ctr
            && CoreInv(c.WithPeer(src, r), h)
            && var o := Opened(src, ct.key, ct.byInitiator, ctr, v);
            && (forall x <- h.decrypted :: !SameCounter(x, o))
            && CoreInv(c.WithPeer(src, r), h.(decrypted := h.decrypted + {o}))
  {
    var q := c.table.sessions[src];
    OfIsOk(c, h, src);
    var s := UnsealOk(c, h, src, q, ctr, ct, now);
    var (r, v) := q.Unseal(ctr, ct, now).value;
    SetSlots(c, h, src, r);
    OpensOnce(c, h, src, s, ctr, ct);
    RecordOpened(c.WithPeer(src, r), h, src, r, s.(seen := s.seen + {ctr}), ctr, ct,
                 Opened(src, ct.key, ct.byInitiator, ctr, v));
  }

  predicate Delivers(c: Core, h: History, src: NodeId, ctr: nat, ct: Cipher, d: Core, fs: seq<Frame>, v: Packet) {
    && ct.Sealed? && v == ct.payload && ct.nonce == ctr
    && var o := Opened(src, ct.key, ct.byInitiator, ctr, v);
    && (forall x <- h.decrypted :: !SameCounter(x, o))
    && CoreInv(d, Record(h, src, d, fs).(decrypted := h.decrypted + {o}))
  }

  /** A packet was opened: recorded once, then perhaps answered. */
  lemma InboundSound(c: Core, h: History, src: NodeId, ctr: nat, ct: Cipher, now: nat)
    requires CoreInv(c, h)
    ensures var (d, fs, inner) := c.InboundData(src, ctr, ct, now);
            && SameIdentity(c, d)
            && (inner.None? ==> CoreInv(d, Record(h, src, d, fs)))
            && (inner.Some? ==> Delivers(c, h, src, ctr, ct, d, fs, inner.value))
  {
    assert Record(h, src, c, []) == h;
    if src in c.table.sessions && c.table.sessions[src].Unseal(ctr, ct, now).Ok? {
      OpeningSound(c, h, src, ctr, ct, now);
      var (r, v) := c.table.sessions[src].Unseal(ctr, ct, now).value;
      var o := Opened(src, ct.key, ct.byInitiator, ctr, v);
      var g := if v == [] then h else h.(decrypted := h.decrypted + {o});
      AnswerKeepalive(c, g, src, r, v, now);
      var (d, fs, _) := c.Heard(src, r, v, now);
      assert v != [] ==> Record(g, src, d, fs) == Record(h, src, d, fs).(decrypted := h.decrypted + {o});
    }
  }

  lemma AnswerKeepalive(c: Core, h: History, src: NodeId, r: PeerSessions, v: Packet, now: nat)
    requires CoreInv(c.WithPeer(src, r), h)
    ensures var (d, fs, _) := c.Heard(src, r, v, now);
            CoreInv(d, Record(h, src, d, fs)) && SameIdentity(c, d)
  {
    var c1 := c.WithPeer(src, r);
    assert Record(h, src, c1, []) == h;
    if v != [] && r.KeepaliveDue(now) {
      OfIsOk(c1, h, src);
      SetSlots(c1, h, src, r.NoteSent(now));
      var c2 := c1.WithPeer(src, r.NoteSent(now));
      SealKeeps(c2, h, src, []);
      var (d, f) := c2.SealTo(src, []);
      assert DataIn([f]) == {f};
    }
  }
}

/**
 The hard deadlines of sessions: what a sweep takes and what it leaves, and that nothing is sealed any
 more on what it took.
 */
module Deadlines {
  import opened Base
  import opened Replay
  import opened Seal
  import opened Sessions
  import opened EngineSpec
  import opened Nodes
  import opened Authenticity
  import opened Network

  function Age(now: nat, since: nat): nat {
    if now > since then now - since else 0
  }

  /** Half open for less than the handshake timeout, or ready and short of both hard limits. */
  predicate InTime(s: Session, now: nat) {
    match s.stage
    case InHandshake(_) => Age(now, s.establishedAt) < HANDSHAKE_TIMEOUT_SECS
    case Transport(_, _) => Age(now, s.establishedAt) < REJECT_AFTER_SECS && s.messages < REJECT_AFTER_MESSAGES
  }

  /** A session that sends, or may come to. */
  predicate Sends(q: PeerSessions, s: Session) {
    q.current == Some(s) || q.next == Some(s)
  }

  predicate Receives(q: PeerSessions, s: Session, since: nat) {
    q.previous == Some((s, since))
  }

  /**
   A sweep leaves of one peer exactly the sessions in time and a previous one within its grace; a
   ready session is not left waiting behind none.
   */
  lemma SweepIsExact(q: PeerSessions, now: nat)
    ensures forall s: Session :: Sends(q.Expire(now), s) <==> Sends(q, s) && InTime(s, now)
    ensures forall s: Session, since: nat ::
              Receives(q.Expire(now), s, since) <==> Receives(q, s, since) && Age(now, since) < PREVIOUS_GRACE_SECS
    ensures q.Expire(now).current.None? ==> !Ready(q.Expire(now).next)
    ensures q.current.Some? && InTime(q.current.value, now) ==>
              q.Expire(now).current == q.current &&
                (q.next.Some? && InTime(q.next.value, now) ==> q.Expire(now).next == q.next)
  {
    var r := q.Expire(now);
    var c := if q.current.Some? && InTime(q.current.value, now) then q.current else None;
    var n := if q.next.Some? && InTime(q.next.value, now) then q.next else None;
    assert r.current == if c.None? && Ready(n) then n else c;
    assert r.next == if c.None? && Ready(n) then None else n;
  }

  /** Some handshake of the peer's has been half open for too long. */
  ghost predicate Overdue(q: PeerSessions, now: nat) {
    exists s: Session :: Sends(q, s) && s.stage.InHandshake? && Age(now, s.establishedAt) >= HANDSHAKE_TIMEOUT_SECS
  }

  /** The sweep of the whole table: peer by peer, dropping those left with nothing; queues and watermarks stay. */
  lemma TableSweepIsExact(t: Table, now: nat)
    ensures var u := t.Expire(now);
            && u.pending == t.pending && u.marks == t.marks
            && (forall p: NodeId, s: Session :: Sends(u.Of(p), s) <==> Sends(t.Of(p), s) && InTime(s, now))
            && (forall p: NodeId, s: Session, since: nat ::
                  Receives(u.Of(p), s, since) <==> Receives(t.Of(p), s, since) && Age(now, since) < PREVIOUS_GRACE_SECS)
            && (forall p <- u.sessions :: p in t.sessions && !u.sessions[p].IsEmpty())
    ensures forall p: NodeId :: p in t.TimedOut(now) <==> p in t.sessions && Overdue(t.sessions[p], now)
  {
    forall p: NodeId
      ensures t.Expire(now).Of(p).IsEmpty() <==> t.Of(p).Expire(now).IsEmpty()
      ensures !t.Of(p).Expire(now).IsEmpty() ==> t.Expire(now).Of(p) == t.Of(p).Expire(now)
      ensures forall s: Session :: Sends(t.Expire(now).Of(p), s) <==> Sends(t.Of(p).Expire(now), s)
      ensures forall s: Session, since: nat ::
                Receives(t.Expire(now).Of(p), s, since) <==> Receives(t.Of(p).Expire(now), s, since)
    {
    }
    forall p: NodeId
      ensures forall s: Session :: Sends(t.Of(p).Expire(now), s) <==> Sends(t.Of(p), s) && InTime(s, now)
      ensures forall s: Session, since: nat ::
                Receives(t.Of(p).Expire(now), s, since) <==>
                  Receives(t.Of(p), s, since) && Age(now, since) < PREVIOUS_GRACE_SECS
    {
      SweepIsExact(t.Of(p), now);
    }
    forall p | p in t.sessions
      ensures t.sessions[p].TimesOut(now) <==> Overdue(t.sessions[p], now)
    {
      TimesOutIff(t.sessions[p], now);
    }
  }

  lemma TimesOutIff(q: PeerSessions, now: nat)
    ensures q.TimesOut(now) <==> Overdue(q, now)
  {
    if q.current.Some? && q.current.value.IsStaleHandshake(now) { assert Sends(q, q.current.value); }
    if q.next.Some? && q.next.value.IsStaleHandshake(now) { assert Sends(q, q.next.value); }
  }

  /** A session opens the frame: the other side's, under its key and counter, within the window and not seen. */
  predicate Fits(s: Session, ctr: nat, ct: Cipher) {
    && s.stage.Transport? && ct.Sealed? && ct.key == s.stage.key && ct.byInitiator != s.initiator && ct.nonce == ctr
    && Accepts(s.seen, ctr)
  }

  /** A frame opens exactly under a session in use, or under the one it replaced within ten seconds of the switch. */
  lemma OpensIff(q: PeerSessions, ctr: nat, ct: Cipher, now: nat)
    ensures q.Unseal(ctr, ct, now).Ok? <==>
            || (exists s: Session :: Sends(q, s) && Fits(s, ctr, ct))
            || (exists s: Session, since: nat :: Receives(q, s, since) && Age(now, since) < 10 && Fits(s, ctr, ct))
  {
    if q.current.Some? { assert Sends(q, q.current.value); }
    if q.next.Some? { assert Sends(q, q.next.value); }
    if q.previous.Some? { assert Receives(q, q.previous.value.0, q.previous.value.1); }
  }

  /** A replaced session only receives, for its grace, and may outlive the hard deadline there. */
  lemma PreviousOutlivesTheDeadline(s: Session, since: nat)
    requires s.IsReady() && s.establishedAt + REJECT_AFTER_SECS == since + 1
    ensures var q := PeerSessions(None, None, Some((s, since)), None, 0);
            Receives(q.Expire(since + 1), s, since) && !InTime(s, since + 1)
  {
  }

  // ---------- nothing is sealed on what was taken ----------

  /** An ephemeral of ours that no session which sends, or may come to, is built on. */
  ghost predicate Retired(c: Core, e: Eph) {
    && e.owner == c.pub && e.idx < c.nextEph
    && forall p: NodeId, s: Session :: Sends(c.table.Of(p), s) ==> Own(s) != e
  }

  /** Every frame sealed is on an ephemeral that is not retired, and retired ones stay so. */
  ghost predicate Respects(c: Core, d: Core, fs: seq<Frame>) {
    && d.pub == c.pub && d.nextEph >= c.nextEph
    && forall e: Eph :: Retired(c, e) ==> Retired(d, e) && Unsealed(fs, e)
  }

  predicate Unsealed(fs: seq<Frame>, e: Eph) {
    forall f <- fs :: f.Data? && f.ct.Sealed? ==> SealerEph(f.ct.key, f.ct.byInitiator) != e
  }

  lemma RespectsBoth(c: Core, d: Core, fs: seq<Frame>, e: Core, gs: seq<Frame>)
    requires Respects(c, d, fs) && Respects(d, e, gs)
    ensures Respects(c, e, fs + gs) && Respects(c, e, gs + fs)
  {
  }

  /** The sending sessions of one peer change to ones on the same ephemerals or on a new one. */
  lemma SetPeerRespects(c: Core, d: Core, peer: NodeId, q: PeerSessions)
    requires d.pub == c.pub && d.nextEph >= c.nextEph
    requires d.table.sessions == c.table.sessions[peer := q]
    requires forall s: Session :: Sends(q, s) ==>
               || (exists t: Session :: Sends(c.table.Of(peer), t) && Own(t) == Own(s))
               || Own(s).owner != c.pub || Own(s).idx >= c.nextEph
    ensures Respects(c, d, [])
  {
    forall e: Eph | Retired(c, e)
      ensures Retired(d, e)
    {
      forall p: NodeId, s: Session | Sends(d.table.Of(p), s)
        ensures Own(s) != e
      {
        if p != peer { assert Sends(c.table.Of(p), s); }
      }
    }
  }

  /** Fewer sessions, or only bookkeeping. */
  lemma FewerRespects(c: Core, d: Core)
    requires d.pub == c.pub && d.nextEph >= c.nextEph
    requires forall p: NodeId, s: Session :: Sends(d.table.Of(p), s) ==> Sends(c.table.Of(p), s)
    ensures Respects(c, d, [])
  {
  }

  lemma SealRespects(c: Core, peer: NodeId, payload: Packet)
    requires c.table.IsReady(peer)
    ensures var (d, f) := c.SealTo(peer, payload); Respects(c, d, [f])
  {
    var (d, f) := c.SealTo(peer, payload);
    var s, q := c.table.Of(peer).current.value, d.table.Of(peer);
    assert Sends(c.table.Of(peer), s) && SealerEph(f.ct.key, f.ct.byInitiator) == Own(s);
    forall t: Session | Sends(q, t)
      ensures exists u: Session :: Sends(c.table.Of(peer), u) && Own(u) == Own(t)
    {
      if q.next == Some(t) { assert Sends(c.table.Of(peer), t); } else { assert Own(t) == Own(s); }
    }
    SetPeerRespects(c, d, peer, q);
  }

  lemma {:induction false} SealAllRespects(c: Core, peer: NodeId, pkts: seq<Packet>)
    requires c.table.IsReady(peer)
    ensures Respects(c, c.SealAll(peer, pkts).0, c.SealAll(peer, pkts).1)
    decreases |pkts|
  {
    if pkts != [] {
      var (d, f) := c.SealTo(peer, pkts[0]);
      SealRespects(c, peer, pkts[0]);
      SealAllRespects(d, peer, pkts[1..]);
      RespectsBoth(c, d, [f], d.SealAll(peer, pkts[1..]).0, d.SealAll(peer, pkts[1..]).1);
    }
  }

  lemma FlushRespects(c: Core, peer: NodeId, now: nat)
    ensures Respects(c, c.FlushPending(peer, now).0, c.FlushPending(peer, now).1)
  {
    if c.table.IsReady(peer) {
      var c1 := c.(table := c.table.DropPending(peer));
      FewerRespects(c, c1);
      SealAllRespects(c1, peer, c.table.Queued(peer));
      var (d, fs) := c1.SealAll(peer, c.table.Queued(peer));
      var d1 := d.(table := d.table.NoteSent(peer, now));
      FewerRespects(d, d1);
      RespectsBoth(c, c1, [], d, fs);
      RespectsBoth(c, d, [] + fs, d1, []);
      assert [] + fs == fs && fs + [] == fs;
    }
  }

  /** A session on the ephemeral just drawn. */
  lemma DrawnRespects(c: Core, d: Core, peer: NodeId, q: PeerSessions, fs: seq<Frame>)
    requires d.pub == c.pub && d.nextEph == c.nextEph + 1 && d.table.sessions == c.table.sessions[peer := q]
    requires forall s: Session :: Sends(q, s) ==> Sends(c.table.Of(peer), s) || Own(s) == c.Fresh()
    requires forall f <- fs :: f.Handshake?
    ensures Respects(c, d, fs)
  {
    SetPeerRespects(c, d, peer, q);
  }

  lemma OutboundRespects(c: Core, peer: NodeId, pkt: Packet, pk: Option<StaticKey>, now: nat, clock: Tai64n)
    ensures Respects(c, c.Outbound(peer, pkt, pk, now, clock).0, c.Outbound(peer, pkt, pk, now, clock).1)
  {
    var (d, fs) := c.Outbound(peer, pkt, pk, now, clock);
    if c.table.IsReady(peer) {
      var (c1, f) := c.SealTo(peer, pkt);
      SealRespects(c, peer, pkt);
      var c2 := c1.(table := c1.table.NoteSent(peer, now));
      FewerRespects(c1, c2);
      RespectsBoth(c, c1, [f], c2, []);
      assert [f] + [] == [f];
      if c2.table.Of(peer).RekeyDue(now) {
        var (e, gs) := c2.StartRekey(peer, pk, now, clock);
        if pk.Some? {
          DrawnRespects(c2, e, peer, e.table.Of(peer), gs);
        } else {
          FewerRespects(c2, e);
        }
        RespectsBoth(c, c2, [f], e, gs);
      }
    } else if c.table.Has(peer) || pk.None? {
      FewerRespects(c, d);
    } else {
      DrawnRespects(c, d, peer, d.table.Of(peer), fs);
    }
  }

  /** The trial of a frame moves no session onto another ephemeral. */
  lemma UnsealRespects(c: Core, src: NodeId, ctr: nat, ct: Cipher, now: nat)
    requires src in c.table.sessions && c.table.sessions[src].Unseal(ctr, ct, now).Ok?
    ensures Respects(c, c.WithPeer(src, c.table.sessions[src].Unseal(ctr, ct, now).value.0), [])
  {
    var p := c.table.sessions[src];
    var q := p.Unseal(ctr, ct, now).value.0;
    forall s: Session | Sends(q, s)
      ensures exists t: Session :: Sends(c.table.Of(src), t) && Own(t) == Own(s)
    {
      if p.current.Some? { assert Sends(c.table.Of(src), p.current.value); }
      if p.next.Some? { assert Sends(c.table.Of(src), p.next.value); }
    }
    SetPeerRespects(c, c.WithPeer(src, q), src, q);
  }

  lemma InboundRespects(c: Core, src: NodeId, ctr: nat, ct: Cipher, now: nat)
    ensures Respects(c, c.InboundData(src, ctr, ct, now).0, c.InboundData(src, ctr, ct, now).1)
  {
    FewerRespects(c, c);
    if src in c.table.sessions && c.table.sessions[src].Unseal(ctr, ct, now).Ok? {
      var (p, v) := c.table.sessions[src].Unseal(ctr, ct, now).value;
      UnsealRespects(c, src, ctr, ct, now);
      var c1 := c.WithPeer(src, p);
      if v != [] && p.KeepaliveDue(now) {
        var c2 := c1.WithPeer(src, p.NoteSent(now));
        FewerRespects(c1, c2);
        SealRespects(c2, src, []);
        var (d, f) := c2.SealTo(src, []);
        RespectsBoth(c, c1, [], c2, []);
        RespectsBoth(c, c2, [] + [], d, [f]);
        assert [] + [] + [f] == [f];
      }
    }
  }

  lemma FinishRekeyRespects(c: Core, peer: NodeId, msg: HandshakeMsg, now: nat)
    requires c.table.Of(peer).NextInFlight() && c.table.Of(peer).next.value.IsReply(msg)
    ensures Respects(c, c.FinishRekey(peer, msg, now).0, c.FinishRekey(peer, msg, now).1)
  {
    var p := c.table.Of(peer);
    var q := p.(next := Some(p.next.value.Finish(msg))).Promote(now);
    var c1 := c.WithPeer(peer, q);
    assert Sends(p, p.next.value) && Own(p.next.value) == Own(q.current.value);
    SetPeerRespects(c, c1, peer, q);
    var (d, f) := c1.SealTo(peer, []);
    SealRespects(c1, peer, []);
    var d1 := d.(table := d.table.NoteSent(peer, now));
    FewerRespects(d, d1);
    FlushRespects(d1, peer, now);
    var (e, fs) := d1.FlushPending(peer, now);
    RespectsBoth(c, c1, [], d, [f]);
    RespectsBoth(c, d, [] + [f], d1, []);
    assert [] + [f] + [] == [f];
    RespectsBoth(c, d1, [f], e, fs);
  }

  lemma FinishFirstRespects(c: Core, peer: NodeId, msg: HandshakeMsg, now: nat)
    requires c.table.Of(peer).CurrentInFlight() && c.table.Of(peer).current.value.IsReply(msg)
    ensures Respects(c, c.FinishFirst(peer, msg, now).0, c.FinishFirst(peer, msg, now).1)
  {
    var p := c.table.Of(peer);
    var q := p.(current := Some(p.current.value.Finish(msg)));
    assert Sends(p, p.current.value) && Own(p.current.value) == Own(q.current.value);
    forall s: Session | Sends(q, s)
      ensures exists t: Session :: Sends(p, t) && Own(t) == Own(s)
    {
      if q.next == Some(s) { assert Sends(p, s); }
    }
    SetPeerRespects(c, c.WithPeer(peer, q), peer, q);
    FlushRespects(c.WithPeer(peer, q), peer, now);
    var (e, fs) := c.WithPeer(peer, q).FlushPending(peer, now);
    RespectsBoth(c, c.WithPeer(peer, q), [], e, fs);
    assert [] + fs == fs;
  }

  lemma {:induction false} QueueAllSessions(t: Table, peer: NodeId, pkts: seq<Packet>)
    ensures t.QueueAll(peer, pkts).sessions == t.sessions
    decreases |pkts|
  {
    if pkts != [] {
      QueueAllSessions(t.Queue(peer, pkts[0]), peer, pkts[1..]);
    }
  }

  lemma AnswerRespects(c: Core, peer: NodeId, msg: HandshakeMsg, pk: Option<StaticKey>, now: nat, carried: seq<Packet>)
    ensures Respects(c, c.Answer(peer, msg, pk, now, carried).0, c.Answer(peer, msg, pk, now, carried).1)
  {
    var (d, fs) := c.Answer(peer, msg, pk, now, carried);
    if fs == [] {
      FewerRespects(c, d);
    } else {
      var s := Respond(msg, peer, c.Fresh(), now);
      var q := c.table.Of(peer).InstallResponder(s);
      QueueAllSessions(c.table.NoteTs(peer, s.PeerStatic(), msg.ts).With(peer, q), peer, carried);
      DrawnRespects(c, d, peer, q, fs);
    }
  }

  lemma FirstHandshakeRespects(c: Core, peer: NodeId, msg: HandshakeMsg, pk: Option<StaticKey>, now: nat)
    ensures Respects(c, c.OnFirstHandshake(peer, msg, pk, now).0, c.OnFirstHandshake(peer, msg, pk, now).1)
  {
    var p := c.table.Of(peer);
    FewerRespects(c, c);
    if !p.CurrentInFlight() {
      AnswerRespects(c, peer, msg, pk, now, []);
    } else if p.current.value.IsReply(msg) {
      FinishFirstRespects(c, peer, msg, now);
    } else if c.id < peer {
      var c1 := c.(table := c.table.Remove(peer));
      FewerRespects(c, c1);
      AnswerRespects(c1, peer, msg, pk, now, c.table.Queued(peer));
      var (d, fs) := c1.Answer(peer, msg, pk, now, c.table.Queued(peer));
      RespectsBoth(c, c1, [], d, fs);
      assert [] + fs == fs;
    }
  }

  lemma HandshakeRespects(c: Core, peer: NodeId, msg: HandshakeMsg, pk: Option<StaticKey>, now: nat)
    ensures Respects(c, c.OnHandshake(peer, msg, pk, now).0, c.OnHandshake(peer, msg, pk, now).1)
  {
    var p := c.table.Of(peer);
    FewerRespects(c, c);
    if !p.NextInFlight() {
      FirstHandshakeRespects(c, peer, msg, pk, now);
    } else if p.next.value.IsReply(msg) {
      FinishRekeyRespects(c, peer, msg, now);
    } else if c.id < peer {
      var c1 := c.WithPeer(peer, p.(next := None));
      FewerRespects(c, c1);
      FirstHandshakeRespects(c1, peer, msg, pk, now);
      var (d, fs) := c1.OnFirstHandshake(peer, msg, pk, now);
      RespectsBoth(c, c1, [], d, fs);
      assert [] + fs == fs;
    }
  }

  lemma SyncRespects(c: Core, s: Sync)
    ensures Respects(c, c.SyncEnd(s), [])
  {
    var d := c.SyncEnd(s);
    forall p: NodeId, t: Session | Sends(d.table.Of(p), t)
      ensures Sends(c.table.Of(p), t)
    {
    }
    FewerRespects(c, d);
  }

  lemma SweepRespects(c: Core, now: nat)
    ensures Respects(c, c.ExpireSessions(now), [])
  {
    TableSweepIsExact(c.table, now);
    FewerRespects(c, c.ExpireSessions(now));
  }

  lemma StepRespects(n: Node, e: Event)
    requires Enabled(n, e)
    ensures Respects(n.core, Step(n, e).0.core, Step(n, e).1)
  {
    FewerRespects(n.core, n.core);
    match e
    case TakeLock(_) =>
    case Send(pkt, now, clock) => OutboundRespects(n.core, n.lock.peer, pkt, n.lock.pk, now, clock);
    case Hear(msg, now) => HandshakeRespects(n.core, n.lock.peer, msg, n.lock.pk, now);
    case Receive(src, ctr, ct, now) => InboundRespects(n.core, src, ctr, ct, now);
    case WriteTun(_, _) =>
    case Flush(peer, now) => FlushRespects(n.core, peer, now);
    case Sweep(now) => SweepRespects(n.core, now);
    case ViewBegin(members) => FewerRespects(n.core, Step(n, e).0.core);
    case ViewEnd(i) => SyncRespects(n.core, n.syncs[i]);
    case Restart => FewerRespects(n.core, Step(n, e).0.core);
  }

  // ---------- whole runs ----------

  lemma {:induction false} TraceKeeps(run: seq<Node>, es: seq<Event>, i: nat)
    requires IsTrace(run, es) && i < |run|
    ensures NodeInv(run[i])
  {
    if i > 0 {
      TraceKeeps(run, es, i - 1);
      assert Took(run, es, i - 1);
      NodeStepSound(run[i - 1], es[i - 1]);
    }
  }

  /** No two sessions that send, or may come to, share an ephemeral of ours. */
  lemma OwnIsUnique(c: Core, h: History, p: NodeId, s: Session, q: NodeId, t: Session)
    requires CoreInv(c, h) && Sends(c.table.Of(p), s) && Sends(c.table.Of(q), t) && Own(s) == Own(t)
    ensures p == q && s == t && OursBy(h, c.pub, Own(s)) && |h.drawn| == c.nextEph
  {
    OfIsOk(c, h, p);
    OfIsOk(c, h, q);
    assert Bound(c, h, p, s) && Bound(c, h, q, t);
  }

  lemma SweptCore(c: Core, h: History, now: nat, peer: NodeId, s: Session)
    requires CoreInv(c, h) && Sends(c.table.Of(peer), s) && !InTime(s, now)
    ensures Retired(c.ExpireSessions(now), Own(s))
  {
    var d := c.ExpireSessions(now);
    TableSweepIsExact(c.table, now);
    OwnIsUnique(c, h, peer, s, peer, s);
    forall p: NodeId, t: Session | Sends(d.table.Of(p), t)
      ensures Own(t) != Own(s)
    {
      assert Sends(c.table.Of(p), t) && InTime(t, now);
      if Own(t) == Own(s) { OwnIsUnique(c, h, peer, s, p, t); }
    }
  }

  /** The sweep retires the ephemeral of every session it takes: no other session is built on it. */
  lemma SweptIsRetired(n: Node, now: nat, peer: NodeId, s: Session)
    requires NodeInv(n) && Enabled(n, Sweep(now)) && Sends(n.core.table.Of(peer), s) && !InTime(s, now)
    ensures Retired(Step(n, Sweep(now)).0.core, Own(s))
  {
    SweptCore(n.core, n.past, now, peer, s);
  }

  lemma {:induction false} StaysRetired(run: seq<Node>, es: seq<Event>, i: nat, j: nat, e: Eph)
    requires IsTrace(run, es) && i <= j < |run| && Retired(run[i].core, e)
    ensures Retired(run[j].core, e)
    decreases j
  {
    if i < j {
      StaysRetired(run, es, i, j - 1, e);
      assert Took(run, es, j - 1);
      StepRespects(run[j - 1], es[j - 1]);
    }
  }

  /**
   In every run: a session that was past its hard deadline, or half open past the timeout, when a
   sweep ran never seals anything afterwards, whatever is received, replayed or restarted.
   */
  lemma NothingIsSealedPastTheDeadline(run: seq<Node>, es: seq<Event>, i: nat, j: nat, peer: NodeId, s: Session,
                                       f: Frame)
    requires IsTrace(run, es) && i < j < |es| && es[i].Sweep?
    requires Sends(run[i].core.table.Of(peer), s) && !InTime(s, es[i].now)
    requires Enabled(run[j], es[j]) && f in Step(run[j], es[j]).1 && f.Data? && f.ct.Sealed?
    ensures SealerEph(f.ct.key, f.ct.byInitiator) != Own(s)
    ensures s.IsReady() ==> !(f.ct.key == s.stage.key && f.ct.byInitiator == s.initiator)
  {
    TraceKeeps(run, es, i);
    assert Took(run, es, i) && Took(run, es, j);
    SweptIsRetired(run[i], es[i].now, peer, s);
    StaysRetired(run, es, i + 1, j, Own(s));
    StepRespects(run[j], es[j]);
  }
}

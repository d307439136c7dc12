/**
 Sessions and queues against the published keys: whenever the sessions lock is free and no
 view application is between its two critical sections, they agree.
 */
module Agreement {
  import opened Base
  import opened Seal
  import opened Sessions
  import opened EngineSpec
  import opened Nodes

  /** Every session in every slot authenticates to `want`. */
  predicate Vouches(want: Option<StaticKey>, p: PeerSessions) {
    && (p.current.Some? ==> want == Some(p.current.value.PeerStatic()))
    && (p.next.Some? ==> want == Some(p.next.value.PeerStatic()))
    && (p.previous.Some? ==> want == Some(p.previous.value.0.PeerStatic()))
  }

  predicate Agrees(t: Table, peers: Members) {
    && (forall p <- t.sessions :: Vouches(PubkeyOf(peers, p), t.sessions[p]))
    && (forall p <- t.pending :: PubkeyOf(peers, p).Some?)
  }

  predicate Bounded(t: Table) {
    forall p <- t.pending :: |t.pending[p]| <= PENDING_LIMIT
  }

  /** The property: free lock, no view application half done. */
  predicate Settled(n: Node) {
    n.lock.Free? && n.syncs == map[]
  }

  predicate InLine(n: Node) {
    Agrees(n.core.table, n.core.peers) && Bounded(n.core.table)
  }

  /** What every critical section keeps: the latest view is applied or still to be applied. */
  predicate Invariant(n: Node) {
    && Bounded(n.core.table)
    && (forall i <- n.syncs :: i <= n.begun)
    && (if n.begun in n.syncs
        then n.syncs[n.begun].published == (map m | m in n.core.peers && m != n.core.id :: n.core.peers[m].pubkey)
        else && Agrees(n.core.table, n.core.peers)
             && (n.lock.Held? ==> n.lock.pk == PubkeyOf(n.core.peers, n.lock.peer)))
  }

  // ---------- critical sections keep tables bounded, and agreeing when the key read is current ----------

  /** `t` moved to `u` without breaking the bound or, under the current keys, the agreement. */
  predicate Keeps(peers: Members, t: Table, u: Table) {
    && (Bounded(t) ==> Bounded(u))
    && (Agrees(t, peers) ==> Agrees(u, peers))
  }

  /** The machine and its peer table are untouched. */
  predicate SameMachine(c: Core, d: Core) {
    c.id == d.id && c.pub == d.pub && c.uuid == d.uuid && c.peers == d.peers
  }

  lemma SetPeer(peers: Members, t: Table, peer: NodeId, q: PeerSessions)
    requires Vouches(PubkeyOf(peers, peer), t.Of(peer)) ==> Vouches(PubkeyOf(peers, peer), q)
    ensures Keeps(peers, t, t.With(peer, q))
  {
  }

  lemma QueueBounds(t: Table, peer: NodeId, pkt: Packet)
    ensures Bounded(t) ==> Bounded(t.Queue(peer, pkt))
  {
  }

  lemma {:induction false} QueueAllBounds(t: Table, peer: NodeId, pkts: seq<Packet>)
    ensures Bounded(t) ==> Bounded(t.QueueAll(peer, pkts))
    decreases |pkts|
  {
    if pkts != [] {
      QueueAllBounds(t.Queue(peer, pkts[0]), peer, pkts[1..]);
    }
  }

  lemma {:induction false} QueueAllKeeps(peers: Members, t: Table, peer: NodeId, pkts: seq<Packet>)
    requires PubkeyOf(peers, peer).Some?
    ensures Keeps(peers, t, t.QueueAll(peer, pkts))
    decreases |pkts|
  {
    if pkts != [] {
      QueueAllKeeps(peers, t.Queue(peer, pkts[0]), peer, pkts[1..]);
    }
  }

  lemma {:induction false} SealAllKeeps(peers: Members, c: Core, peer: NodeId, pkts: seq<Packet>)
    requires c.table.IsReady(peer)
    ensures Keeps(peers, c.table, c.SealAll(peer, pkts).0.table)
    ensures SameMachine(c, c.SealAll(peer, pkts).0)
    decreases |pkts|
  {
    if pkts != [] {
      var (d, _) := c.SealTo(peer, pkts[0]);
      SetPeer(peers, c.table, peer, d.table.Of(peer));
      SealAllKeeps(peers, d, peer, pkts[1..]);
    }
  }

  lemma FlushKeeps(peers: Members, c: Core, peer: NodeId, now: nat)
    ensures Keeps(peers, c.table, c.FlushPending(peer, now).0.table)
    ensures SameMachine(c, c.FlushPending(peer, now).0)
  {
    if c.table.IsReady(peer) {
      SealAllKeeps(peers, c.(table := c.table.DropPending(peer)), peer, c.table.Queued(peer));
    }
  }

  lemma OutboundBounds(c: Core, peer: NodeId, pkt: Packet, pk: Option<StaticKey>, now: nat, clock: Tai64n)
    ensures Bounded(c.table) ==> Bounded(c.Outbound(peer, pkt, pk, now, clock).0.table)
    ensures SameMachine(c, c.Outbound(peer, pkt, pk, now, clock).0)
  {
    QueueBounds(c.table, peer, pkt);
  }

  lemma OutboundAgrees(c: Core, peer: NodeId, pkt: Packet, now: nat, clock: Tai64n)
    requires Agrees(c.table, c.peers)
    ensures Agrees(c.Outbound(peer, pkt, PubkeyOf(c.peers, peer), now, clock).0.table, c.peers)
  {
    var d := c.Outbound(peer, pkt, PubkeyOf(c.peers, peer), now, clock).0;
    assert Vouches(PubkeyOf(c.peers, peer), c.table.Of(peer));
    if c.table.IsReady(peer) {
      assert d.table.pending == c.table.pending;
      assert forall p <- d.table.sessions :: p != peer ==> d.table.sessions[p] == c.table.sessions[p];
      assert Vouches(PubkeyOf(c.peers, peer), d.table.Of(peer));
    }
  }

  lemma UnsealVouches(want: Option<StaticKey>, p: PeerSessions, ctr: nat, ct: Cipher, now: nat)
    requires Vouches(want, p) && p.Unseal(ctr, ct, now).Ok?
    ensures Vouches(want, p.Unseal(ctr, ct, now).value.0)
  {
  }

  lemma HeardKeeps(peers: Members, c: Core, src: NodeId, q: PeerSessions, v: Packet, now: nat)
    requires Vouches(PubkeyOf(peers, src), c.table.Of(src)) ==> Vouches(PubkeyOf(peers, src), q)
    ensures Keeps(peers, c.table, c.Heard(src, q, v, now).0.table)
    ensures SameMachine(c, c.Heard(src, q, v, now).0)
  {
    SetPeer(peers, c.table, src, q);
    if v != [] && q.KeepaliveDue(now) {
      var c2 := c.WithPeer(src, q).WithPeer(src, q.NoteSent(now));
      SetPeer(peers, c.WithPeer(src, q).table, src, q.NoteSent(now));
      var (d, _) := c2.SealTo(src, []);
      SetPeer(peers, c2.table, src, d.table.Of(src));
    }
  }

  lemma InboundKeeps(peers: Members, c: Core, src: NodeId, ctr: nat, ct: Cipher, now: nat)
    ensures Keeps(peers, c.table, c.InboundData(src, ctr, ct, now).0.table)
    ensures SameMachine(c, c.InboundData(src, ctr, ct, now).0)
  {
    if src in c.table.sessions && c.table.sessions[src].Unseal(ctr, ct, now).Ok? {
      var (q, v) := c.table.sessions[src].Unseal(ctr, ct, now).value;
      if Vouches(PubkeyOf(peers, src), c.table.Of(src)) {
        UnsealVouches(PubkeyOf(peers, src), c.table.Of(src), ctr, ct, now);
      }
      HeardKeeps(peers, c, src, q, v, now);
    }
  }

  /** Answering installs only a session that authenticates to the key just read. */
  lemma AnswerKeeps(c: Core, peer: NodeId, msg: HandshakeMsg, pk: Option<StaticKey>, now: nat, carried: seq<Packet>)
    ensures var d := c.Answer(peer, msg, pk, now, carried).0;
            && SameMachine(c, d)
            && (Bounded(c.table) ==> Bounded(d.table))
            && (pk == PubkeyOf(c.peers, peer) && Agrees(c.table, c.peers) ==> Agrees(d.table, c.peers))
  {
    if IsInitiation(c.uuid, c.id, c.pub, peer, msg) {
      var s := Respond(msg, peer, c.Fresh(), now);
      if pk == Some(s.PeerStatic()) && c.table.AcceptsTs(peer, s.PeerStatic(), msg.ts) {
        var q := c.table.Of(peer).InstallResponder(s);
        var t := c.table.NoteTs(peer, s.PeerStatic(), msg.ts).With(peer, q);
        QueueAllBounds(t, peer, carried);
        if pk == PubkeyOf(c.peers, peer) {
          assert Vouches(pk, c.table.Of(peer)) ==> Vouches(pk, q);
          QueueAllKeeps(c.peers, t, peer, carried);
        }
      }
    }
  }

  lemma FirstHandshakeKeeps(c: Core, peer: NodeId, msg: HandshakeMsg, pk: Option<StaticKey>, now: nat)
    ensures var d := c.OnFirstHandshake(peer, msg, pk, now).0;
            && SameMachine(c, d)
            && (Bounded(c.table) ==> Bounded(d.table))
            && (pk == PubkeyOf(c.peers, peer) && Agrees(c.table, c.peers) ==> Agrees(d.table, c.peers))
  {
    var p := c.table.Of(peer);
    if !p.CurrentInFlight() {
      AnswerKeeps(c, peer, msg, pk, now, []);
    } else if p.current.value.IsReply(msg) {
      var q := p.(current := Some(p.current.value.Finish(msg)));
      SetPeer(c.peers, c.table, peer, q);
      FlushKeeps(c.peers, c.WithPeer(peer, q), peer, now);
    } else if c.id < peer {
      AnswerKeeps(c.(table := c.table.Remove(peer)), peer, msg, pk, now, c.table.Queued(peer));
    }
  }

  lemma HandshakeKeeps(c: Core, peer: NodeId, msg: HandshakeMsg, pk: Option<StaticKey>, now: nat)
    ensures var d := c.OnHandshake(peer, msg, pk, now).0;
            && SameMachine(c, d)
            && (Bounded(c.table) ==> Bounded(d.table))
            && (pk == PubkeyOf(c.peers, peer) && Agrees(c.table, c.peers) ==> Agrees(d.table, c.peers))
  {
    var p := c.table.Of(peer);
    if !p.NextInFlight() {
      FirstHandshakeKeeps(c, peer, msg, pk, now);
    } else if p.next.value.IsReply(msg) {
      var q := p.(next := Some(p.next.value.Finish(msg))).Promote(now);
      SetPeer(c.peers, c.table, peer, q);
      var c1 := c.WithPeer(peer, q);
      var (d, _) := c1.SealTo(peer, []);
      SetPeer(c.peers, c1.table, peer, d.table.Of(peer));
      var e := d.(table := d.table.NoteSent(peer, now));
      SetPeer(c.peers, d.table, peer, e.table.Of(peer));
      FlushKeeps(c.peers, e, peer, now);
    } else if c.id < peer {
      var q := p.(next := None);
      SetPeer(c.peers, c.table, peer, q);
      FirstHandshakeKeeps(c.WithPeer(peer, q), peer, msg, pk, now);
    }
  }

  lemma SweepKeeps(peers: Members, t: Table, now: nat)
    ensures Keeps(peers, t, t.Expire(now))
  {
    forall p | p in t.sessions
      ensures forall want :: Vouches(want, t.sessions[p]) ==> Vouches(want, t.sessions[p].Expire(now))
    {
    }
  }

  /** Applying any view, even an outdated one, only takes away. */
  lemma ViewKeeps(peers: Members, t: Table, s: Sync)
    ensures Keeps(peers, t, Forgotten(t, s.relogged).SyncView(s.published))
  {
  }

  /** Applying a view leaves sessions and queues in line with its keys. */
  lemma ViewAligns(t: Table, me: NodeId, peers: Members, relogged: set<NodeId>)
    ensures Agrees(Forgotten(t, relogged).SyncView(map m | m in peers && m != me :: peers[m].pubkey), peers)
  {
    var published: Published := map m | m in peers && m != me :: peers[m].pubkey;
    forall p
      ensures KeyIn(published, p).Some? ==> KeyIn(published, p) == PubkeyOf(peers, p)
    {
    }
  }

  // ---------- exactly what a view takes away ----------

  /** The session stands in the slot and authenticates to the key now published for its peer. */
  predicate Keepable(published: Published, p: NodeId, s: Session) {
    p in published && published[p] == Some(if s.initiator then s.Hs().respStatic else s.Hs().initStatic)
  }

  predicate Loser(published: Published, p: NodeId, q: PeerSessions) {
    || (q.current.Some? && !Keepable(published, p, q.current.value))
    || (q.next.Some? && !Keepable(published, p, q.next.value))
    || (q.previous.Some? && !Keepable(published, p, q.previous.value.0))
  }

  /**
   Applying a view takes exactly the sessions that do not authenticate to the key it publishes for
   their peer, and leaves every other one where it was.
   */
  lemma ViewTakesExactly(t: Table, published: Published, p: NodeId)
    ensures var q, r := t.Of(p), t.SyncView(published).Of(p);
            && r.current == (if q.current.Some? && Keepable(published, p, q.current.value) then q.current else None)
            && r.next == (if q.next.Some? && Keepable(published, p, q.next.value) then q.next else None)
            && r.previous == (if q.previous.Some? && Keepable(published, p, q.previous.value.0) then q.previous
               else None)
    ensures p in t.Dropped(published) <==> p in t.sessions && Loser(published, p, t.sessions[p])
  {
  }

  /**
   A queue stays exactly if its peer has a usable key and has not just lost every session it had; a
   watermark exactly if its key is the one published, and its peer has not logged in anew.
   */
  lemma ViewKeepsExactly(c: Core, s: Sync, p: NodeId, key: StaticKey)
    ensures var t, u := c.table, c.SyncEnd(s).table;
            && (p in u.pending <==>
                  && p in t.pending && p in s.published && s.published[p].Some?
                  && (p in u.sessions || p !in t.sessions || !Loser(s.published, p, t.sessions[p])))
            && (p in u.pending ==> u.pending[p] == t.pending[p])
            && ((p, key) in u.marks <==>
                  (p, key) in t.marks && p !in s.relogged && p in s.published && s.published[p] == Some(key))
            && ((p, key) in u.marks ==> u.marks[(p, key)] == t.marks[(p, key)])
  {
    ViewTakesExactly(Forgotten(c.table, s.relogged), s.published, p);
  }

  /** Whom a view counts as logged in anew: known before, with another login or another key. */
  lemma ReloggedIff(c: Core, members: Members, m: NodeId)
    ensures var (d, s) := c.SyncBegin(members);
            && d == c.(peers := members)
            && (m in s.relogged <==>
                  && m in c.peers && m in members
                  && (c.peers[m].loginGen != members[m].loginGen || c.peers[m].pubkey != members[m].pubkey))
            && (m in s.published <==> m in members && m != c.id)
            && (m in s.published ==> s.published[m] == members[m].pubkey)
  {
  }

  // ---------- every run ----------

  /** A critical section under the sessions lock that leaves the peer table alone. */
  lemma SectionKeeps(n: Node, m: Node)
    requires Invariant(n) && SameMachine(n.core, m.core)
    requires Bounded(n.core.table) ==> Bounded(m.core.table)
    requires n.begun !in n.syncs && Agrees(n.core.table, n.core.peers) ==> Agrees(m.core.table, n.core.peers)
    requires m.syncs == n.syncs && m.begun == n.begun && (m.lock == n.lock || m.lock == Free)
    ensures Invariant(m)
  {
  }

  lemma SendKeeps(n: Node, e: Event)
    requires Invariant(n) && Enabled(n, e) && (e.Send? || e.Hear?)
    ensures Invariant(Step(n, e).0)
  {
    match e {
      case Send(pkt, now, clock) =>
        OutboundBounds(n.core, n.lock.peer, pkt, n.lock.pk, now, clock);
        if n.begun !in n.syncs {
          OutboundAgrees(n.core, n.lock.peer, pkt, now, clock);
        }
      case Hear(msg, now) => HandshakeKeeps(n.core, n.lock.peer, msg, n.lock.pk, now);
    }
    SectionKeeps(n, Step(n, e).0);
  }

  lemma ReceiveKeeps(n: Node, e: Event)
    requires Invariant(n) && Enabled(n, e) && (e.Receive? || e.Flush? || e.Sweep?)
    ensures Invariant(Step(n, e).0)
  {
    match e {
      case Receive(src, ctr, ct, now) => InboundKeeps(n.core.peers, n.core, src, ctr, ct, now);
      case Flush(peer, now) => FlushKeeps(n.core.peers, n.core, peer, now);
      case Sweep(now) => SweepKeeps(n.core.peers, n.core.table, now);
    }
    SectionKeeps(n, Step(n, e).0);
  }

  lemma StepKeepsInvariant(n: Node, e: Event)
    requires Invariant(n) && Enabled(n, e)
    ensures Invariant(Step(n, e).0)
  {
    if e.Send? || e.Hear? {
      SendKeeps(n, e);
    } else if e.Receive? || e.Flush? || e.Sweep? {
      ReceiveKeeps(n, e);
    } else if e.ViewEnd? {
      ViewKeeps(n.core.peers, n.core.table, n.syncs[e.i]);
      ViewAligns(n.core.table, n.core.id, n.core.peers, n.syncs[e.i].relogged);
    }
  }

  lemma {:induction false} RunKeepsInvariant(run: seq<Node>)
    requires IsRun(run)
    ensures Invariant(run[|run| - 1])
  {
    var k := |run| - 1;
    if k > 0 {
      assert run[..k][k - 1] == run[k - 1];
      RunKeepsInvariant(run[..k]);
      assert Follows(run[k - 1], run[k]);
      var e: Event :| Enabled(run[k - 1], e) && run[k] == Step(run[k - 1], e).0;
      StepKeepsInvariant(run[k - 1], e);
    }
  }

  /**
   In every run, in every state where the sessions lock is free and no view application is
   half done, every session authenticates to the key now published for its peer, no queue
   waits for a peer without a usable key, and no queue exceeds its limit.
   */
  lemma SettledNodesAreInLine(run: seq<Node>, i: nat)
    requires IsRun(run) && i < |run|
    ensures Bounded(run[i].core.table)
    ensures Settled(run[i]) ==> InLine(run[i])
  {
    assert forall k :: 0 <= k <= i ==> run[..i + 1][k] == run[k];
    RunKeepsInvariant(run[..i + 1]);
  }
}

/**
 Packets that wait for a session, and the timers of one in use: what is queued, sealed, answered and
 replaced, stated on the packets and the times alone.
 */
module Queues {
  import opened Base
  import opened Seal
  import opened Sessions
  import opened EngineSpec

  // ---------- the queue ----------

  /** The last `n` of a sequence, or all of it. */
  function Latest<T>(v: seq<T>, n: nat): seq<T> {
    if |v| <= n then v else v[|v| - n..]
  }

  /** A queue holds the latest packets, in the order they were sent; no other queue is touched. */
  lemma {:induction false} QueueHoldsTheLatest(t: Table, peer: NodeId, pkts: seq<Packet>)
    requires |t.Queued(peer)| <= PENDING_LIMIT
    ensures t.QueueAll(peer, pkts).Queued(peer) == Latest(t.Queued(peer) + pkts, PENDING_LIMIT)
    ensures forall p :: p != peer ==> t.QueueAll(peer, pkts).Queued(p) == t.Queued(p)
    ensures t.QueueAll(peer, pkts).sessions == t.sessions && t.QueueAll(peer, pkts).marks == t.marks
    decreases |pkts|
  {
    var q := t.Queued(peer);
    if pkts == [] {
      assert q + pkts == q;
    } else {
      var u := t.Queue(peer, pkts[0]);
      QueueHoldsTheLatest(u, peer, pkts[1..]);
      assert u.Queued(peer) == Latest(q + [pkts[0]], PENDING_LIMIT);
      LatestTwice(q, pkts, PENDING_LIMIT);
    }
  }

  lemma LatestTwice<T>(q: seq<T>, pkts: seq<T>, n: nat)
    requires pkts != [] && |q| <= n
    ensures Latest(Latest(q + [pkts[0]], n) + pkts[1..], n) == Latest(q + pkts, n)
  {
    var all, cut := q + pkts, q + [pkts[0]];
    assert cut + pkts[1..] == all;
    if |q| == n {
      assert Latest(cut, n) == cut[1..];
      assert cut[1..] + pkts[1..] == all[1..];
      LatestOfTail(all, n);
    }
  }

  lemma LatestOfTail<T>(v: seq<T>, n: nat)
    requires |v| > n
    ensures Latest(v[1..], n) == Latest(v, n)
  {
    if |v| > n + 1 { assert v[1..][|v| - 1 - n..] == v[|v| - n..]; }
  }

  /** The frame that carries `pkt` as the `i`th sealed after nonce `n` on the session toward `peer`. */
  function FrameOf(c: Core, peer: NodeId, pkt: Packet, i: nat): Frame
    requires c.table.IsReady(peer)
  {
    var s := c.table.Of(peer).current.value;
    Data(c.id, peer, s.stage.sendNonce + i, Sealed(s.stage.key, s.initiator, s.stage.sendNonce + i, pkt))
  }

  lemma {:induction false} SealsInOrder(c: Core, peer: NodeId, pkts: seq<Packet>)
    requires c.table.IsReady(peer)
    ensures var (d, fs) := c.SealAll(peer, pkts);
            && |fs| == |pkts| && (forall i :: 0 <= i < |fs| ==> fs[i] == FrameOf(c, peer, pkts[i], i))
            && d.table.pending == c.table.pending && d.table.marks == c.table.marks
    decreases |pkts|
  {
    if pkts != [] {
      var (c1, f) := c.SealTo(peer, pkts[0]);
      SealsInOrder(c1, peer, pkts[1..]);
      var (d, fs) := c1.SealAll(peer, pkts[1..]);
      forall i | 0 <= i < |fs|
        ensures fs[i] == FrameOf(c, peer, pkts[i + 1], i + 1)
      {
        assert fs[i] == FrameOf(c1, peer, pkts[1..][i], i);
      }
    }
  }

  /** Once the session is ready everything that waited goes out, in order and once; before that nothing does. */
  lemma FlushSealsTheQueue(c: Core, peer: NodeId, now: nat)
    ensures var (d, fs) := c.FlushPending(peer, now);
            if c.table.IsReady(peer)
            then && |fs| == |c.table.Queued(peer)| && d.table.Queued(peer) == []
                 && forall i :: 0 <= i < |fs| ==> fs[i] == FrameOf(c, peer, c.table.Queued(peer)[i], i)
            else d == c && fs == []
  {
    if c.table.IsReady(peer) {
      var c1 := c.(table := c.table.DropPending(peer));
      SealsInOrder(c1, peer, c.table.Queued(peer));
      forall i: nat, pkt: Packet
        ensures FrameOf(c1, peer, pkt, i) == FrameOf(c, peer, pkt, i)
      {
      }
    }
  }

  /** A packet for a peer whose session is not ready waits, last in line, and starts a call if none is under way. */
  lemma PacketWaits(c: Core, peer: NodeId, pkt: Packet, pk: Option<StaticKey>, now: nat, clock: Tai64n)
    requires !c.table.IsReady(peer) && |c.table.Queued(peer)| <= PENDING_LIMIT
    ensures var (d, fs) := c.Outbound(peer, pkt, pk, now, clock);
            var q := c.table.Of(peer);
            if q.current.Some? || q.next.Some? then
              fs == [] && d.table.Queued(peer) == Latest(c.table.Queued(peer) + [pkt], PENDING_LIMIT)
            else if pk.None? then fs == [] && d.table.Queued(peer) == []
            else && |fs| == 1 && fs[0].Handshake? && fs[0].msg.Msg1? && fs[0].msg.hs.respStatic == pk.value
                 && d.table.Queued(peer) == Latest(c.table.Queued(peer) + [pkt], PENDING_LIMIT)
  {
    QueueHoldsTheLatest(c.table, peer, [pkt]);
    assert c.table.QueueAll(peer, [pkt]) == c.table.Queue(peer, pkt).QueueAll(peer, [pkt][1..]);
    assert [pkt][1..] == [];
  }

  /** The side that yields a crossed first handshake takes its queue over to the session it answers with. */
  lemma YieldKeepsTheQueue(c: Core, peer: NodeId, msg: HandshakeMsg, pk: Option<StaticKey>, now: nat)
    requires c.table.Of(peer).CurrentInFlight() && !c.table.Of(peer).NextInFlight() && c.id < peer
    requires msg.Msg1? && |c.table.Queued(peer)| <= PENDING_LIMIT
    ensures var (d, fs) := c.OnHandshake(peer, msg, pk, now);
            fs != [] ==> d.table.Queued(peer) == c.table.Queued(peer) && d.table.IsReady(peer)
  {
    var c1, queued := c.(table := c.table.Remove(peer)), c.table.Queued(peer);
    var (d, fs) := c1.Answer(peer, msg, pk, now, queued);
    if fs != [] {
      var s := Respond(msg, peer, c1.Fresh(), now);
      var t := c1.table.NoteTs(peer, s.PeerStatic(), msg.ts).With(peer, c1.table.Of(peer).InstallResponder(s));
      assert t.Queued(peer) == [];
      QueueHoldsTheLatest(t, peer, queued);
      assert [] + queued == queued;
    }
  }

  // ---------- when a session in use is replaced, and when it is kept alive ----------

  function Since(now: nat, t: nat): nat {
    if now > t then now - t else 0
  }

  /**
   Sending on a ready session seals the packet, and starts a replacement exactly if none is under way,
   the peer's key is known, and the session is old, has carried as much as it may, or went unanswered.
   */
  lemma ReplacementStartsIff(c: Core, peer: NodeId, pkt: Packet, pk: Option<StaticKey>, now: nat, clock: Tai64n)
    requires c.table.IsReady(peer)
    ensures var q := c.table.Of(peer);
            var s, (d, fs) := q.current.value, c.Outbound(peer, pkt, pk, now, clock);
            && fs != [] && fs[0] == FrameOf(c, peer, pkt, 0)
            && (|fs| == 2 <==>
                  && q.next.None? && pk.Some?
                  && (|| Since(now, s.establishedAt) >= (if s.initiator then 120 else 130)
                      || s.messages + 1 >= 0x100_0000_0000
                      || (q.awaitingSince.Some? && Since(now, q.awaitingSince.value) >= 10)))
            && (|fs| == 2 ==> fs[1].Handshake? && fs[1].msg.Msg1? && d.table.Of(peer).NextInFlight())
            && |fs| <= 2
  {
  }

  /** The time of the first packet nothing has answered yet. */
  predicate UnansweredSince(c: Core, peer: NodeId, t: nat) {
    c.table.IsReady(peer) && c.table.Of(peer).awaitingSince == Some(t)
  }

  // One packet sent and the time of sending.
  datatype Sent = Sent(pkt: Packet, now: nat, clock: Tai64n)

  function SendEach(c: Core, peer: NodeId, pk: Option<StaticKey>, out: seq<Sent>): Core
    decreases |out|
  {
    if out == [] then c else SendEach(c.Outbound(peer, out[0].pkt, pk, out[0].now, out[0].clock).0, peer, pk, out[1..])
  }

  lemma {:induction false} SendingStaysUnanswered(c: Core, peer: NodeId, pk: Option<StaticKey>, out: seq<Sent>, t: nat)
    requires UnansweredSince(c, peer, t)
    ensures UnansweredSince(SendEach(c, peer, pk, out), peer, t)
    decreases |out|
  {
    if out != [] {
      SendingStaysUnanswered(c.Outbound(peer, out[0].pkt, pk, out[0].now, out[0].clock).0, peer, pk, out[1..], t);
    }
  }

  /**
   A peer that went silent is noticed: however many packets follow the first unanswered one, the first
   of them sent ten seconds later finds a replacement under way or starts one.
   */
  lemma SilenceIsNoticed(c: Core, peer: NodeId, pk: StaticKey, first: Sent, out: seq<Sent>, late: Sent)
    requires c.table.IsReady(peer) && c.table.Of(peer).awaitingSince.None? && late.now >= first.now + 10
    ensures SendEach(c, peer, Some(pk), [first] + out + [late]).table.Of(peer).next.Some?
  {
    var c1 := c.Outbound(peer, first.pkt, Some(pk), first.now, first.clock).0;
    SendingStaysUnanswered(c1, peer, Some(pk), out, first.now);
    var c2 := SendEach(c1, peer, Some(pk), out);
    SendEachSplits(c, peer, Some(pk), [first], out + [late]);
    SendEachSplits(c1, peer, Some(pk), out, [late]);
    assert [first] + out + [late] == [first] + (out + [late]);
    assert [first][1..] == [] && [late][1..] == [];
    assert SendEach(c, peer, Some(pk), [first]) == c1;
    assert SendEach(c2, peer, Some(pk), [late]) == c2.Outbound(peer, late.pkt, Some(pk), late.now, late.clock).0;
    ReplacementStartsIff(c2, peer, late.pkt, Some(pk), late.now, late.clock);
  }

  lemma {:induction false} SendEachSplits(c: Core, peer: NodeId, pk: Option<StaticKey>, a: seq<Sent>, b: seq<Sent>)
    ensures SendEach(c, peer, pk, a + b) == SendEach(SendEach(c, peer, pk, a), peer, pk, b)
    decreases |a|
  {
    if a == [] {
      assert a + b == b;
    } else {
      assert (a + b)[0] == a[0] && (a + b)[1..] == a[1..] + b;
      SendEachSplits(c.Outbound(peer, a[0].pkt, pk, a[0].now, a[0].clock).0, peer, pk, a[1..], b);
    }
  }

  /**
   A data frame that opens is answered with one empty frame exactly if it carries a packet and nothing
   was sent for five seconds; an empty one never is, so two ends never keep each other awake. Having
   heard from the peer, nothing sent before counts as unanswered.
   */
  lemma KeepaliveIff(c: Core, src: NodeId, ctr: nat, ct: Cipher, now: nat)
    requires src in c.table.sessions && c.table.sessions[src].Unseal(ctr, ct, now).Ok?
    ensures var p := c.table.sessions[src].Unseal(ctr, ct, now).value.0;
            var (d, fs, inner) := c.InboundData(src, ctr, ct, now);
            && ct.Sealed? && p.awaitingSince.None?
            && (inner == if ct.payload == [] then None else Some(ct.payload))
            && (fs != [] <==> ct.payload != [] && Ready(p.current) && Since(now, p.lastSent) >= 5)
            && (fs != [] ==> |fs| == 1 && fs[0].Data? && fs[0].ct.Sealed? && fs[0].ct.payload == [])
  {
    TrialOrderIsHarmless(c.table.sessions[src], ctr, ct, now);
  }
}

/**
 The endpoint data plane. `Core` and its functions say what each critical section does;
 the class `Engine` performs them step by step and is proved to do exactly that.
 */
module EngineSpec {
  import opened Base
  import opened Seal
  import opened Sessions

  datatype Frame =
    | Data(src: NodeId, dst: NodeId, ctr: nat, ct: Cipher)
    | Handshake(src: NodeId, dst: NodeId, msg: HandshakeMsg)

  /** A member as the view publishes it; without a `pubkey` if the published one is malformed. */
  datatype PeerInfo = PeerInfo(nodeId: NodeId, pubkey: Option<StaticKey>, loginGen: nat)

  type Members = map<NodeId, PeerInfo>

  function PubkeyOf(peers: Members, id: NodeId): Option<StaticKey> {
    if id in peers then peers[id].pubkey else None
  }

  /** A view application between its two critical sections. */
  datatype Sync = Sync(published: Published, relogged: set<NodeId>)

  datatype Core = Core(
    id: NodeId, pub: StaticKey, uuid: nat,
    peers: Members, table: Table, lastTs: Tai64n, nextEph: nat)
  {
    function Fresh(): Eph { Eph(pub, nextEph) }

    function DrawEph(): Core { this.(nextEph := nextEph + 1) }

    /** A msg1 timestamp after every one sent before, given what the clock reads. */
    function NextTs(clock: Tai64n): Tai64n {
      if lastTs.Before(clock) then clock else lastTs.Succ()
    }

    function WithPeer(peer: NodeId, p: PeerSessions): Core { this.(table := table.With(peer, p)) }

    // ----- sealing -----

    function SealTo(peer: NodeId, payload: Packet): (Core, Frame)
      requires table.IsReady(peer)
    {
      var p := table.Of(peer);
      var (s, n, ct) := p.current.value.Seal(payload);
      (WithPeer(peer, p.(current := Some(s))), Data(id, peer, n, ct))
    }

    function SealAll(peer: NodeId, pkts: seq<Packet>): (r: (Core, seq<Frame>))
      requires table.IsReady(peer)
      ensures r.0.table.IsReady(peer) && |r.1| == |pkts|
      decreases |pkts|
    {
      if pkts == [] then (this, []) else
      var (c, f) := SealTo(peer, pkts[0]);
      var (d, fs) := c.SealAll(peer, pkts[1..]);
      (d, [f] + fs)
    }

    /** Seal the packets queued for this peer. */
    function FlushPending(peer: NodeId, now: nat): (Core, seq<Frame>) {
      if !table.IsReady(peer) then (this, []) else
      var queued := table.Queued(peer);
      var (c, fs) := this.(table := table.DropPending(peer)).SealAll(peer, queued);
      (if fs == [] then c else c.(table := c.table.NoteSent(peer, now)), fs)
    }

    // ----- outbound -----

    /** Begin replacing a working session, `pk` being the key just read for the peer. */
    function StartRekey(peer: NodeId, pk: Option<StaticKey>, now: nat, clock: Tai64n): (Core, seq<Frame>) {
      if pk.None? then (this, []) else
      var s := Initiate(uuid, id, pub, peer, pk.value, Fresh(), now);
      var ts := NextTs(clock);
      (DrawEph().(table := table.Rekeying(peer, s), lastTs := ts), [Handshake(id, peer, Msg1(s.Hs(), ts))])
    }

    /** One packet for `peer`: seal it (and perhaps rekey), or queue it (and perhaps start). */
    function Outbound(peer: NodeId, pkt: Packet, pk: Option<StaticKey>, now: nat, clock: Tai64n): (Core, seq<Frame>) {
      if table.IsReady(peer) then
        var (c, f) := SealTo(peer, pkt);
        var d := c.(table := c.table.NoteSent(peer, now));
        if d.table.Of(peer).RekeyDue(now) then
          var (e, fs) := d.StartRekey(peer, pk, now, clock);
          (e, [f] + fs)
        else (d, [f])
      else if table.Has(peer) then
        (this.(table := table.Queue(peer, pkt)), [])
      else if pk.None? then
        (this.(table := table.DropPending(peer)), [])
      else
        var s := Initiate(uuid, id, pub, peer, pk.value, Fresh(), now);
        var ts := NextTs(clock);
        (DrawEph().(table := table.Queue(peer, pkt).Initiated(peer, s), lastTs := ts),
         [Handshake(id, peer, Msg1(s.Hs(), ts))])
    }

    // ----- inbound -----

    /** A frame from `src` opened to `v`, leaving its sessions at `p`: record it and, when we
        have been quiet, answer a data frame with a keepalive. */
    function Heard(src: NodeId, p: PeerSessions, v: Packet, now: nat): (Core, seq<Frame>, Option<Packet>) {
      var c := WithPeer(src, p);
      if v == [] then (c, [], None)
      else if p.KeepaliveDue(now) then
        var (d, f) := c.WithPeer(src, p.NoteSent(now)).SealTo(src, []);
        (d, [f], Some(v))
      else (c, [], Some(v))
    }

    function InboundData(src: NodeId, ctr: nat, ct: Cipher, now: nat): (Core, seq<Frame>, Option<Packet>) {
      if src !in table.sessions then (this, [], None) else
      match table.sessions[src].Unseal(ctr, ct, now)
      case Err(_) => (this, [], None)
      case Ok((p, v)) => Heard(src, p, v, now)
    }

    /** Our rekey was answered: switch, prove it with a keepalive, and flush. */
    function FinishRekey(peer: NodeId, msg: HandshakeMsg, now: nat): (Core, seq<Frame>)
      requires table.Of(peer).NextInFlight() && table.Of(peer).next.value.IsReply(msg)
    {
      var p := table.Of(peer);
      var c := WithPeer(peer, p.(next := Some(p.next.value.Finish(msg))).Promote(now));
      var (d, keepalive) := c.SealTo(peer, []);
      var (e, fs) := d.(table := d.table.NoteSent(peer, now)).FlushPending(peer, now);
      (e, fs + [keepalive])
    }

    /** Our first handshake was answered. */
    function FinishFirst(peer: NodeId, msg: HandshakeMsg, now: nat): (Core, seq<Frame>)
      requires table.Of(peer).CurrentInFlight() && table.Of(peer).current.value.IsReply(msg)
    {
      var p := table.Of(peer);
      WithPeer(peer, p.(current := Some(p.current.value.Finish(msg)))).FlushPending(peer, now)
    }

    /** Answer a first message whose static key is the one published; the lock is then
        released before the queue is flushed. */
    function Answer(peer: NodeId, msg: HandshakeMsg, pk: Option<StaticKey>, now: nat,
                    carried: seq<Packet>): (Core, seq<Frame>)
    {
      if !IsInitiation(uuid, id, pub, peer, msg) then (this, []) else
      var s := Respond(msg, peer, Fresh(), now);
      var c := DrawEph();
      if pk != Some(s.PeerStatic()) || !table.AcceptsTs(peer, s.PeerStatic(), msg.ts) then (c, []) else
      var t := table.NoteTs(peer, s.PeerStatic(), msg.ts).With(peer, table.Of(peer).InstallResponder(s));
      (c.(table := t.QueueAll(peer, carried)), [Handshake(id, peer, Msg2(s.stage.key))])
    }

    /** Neither our rekey nor our first handshake in flight was answered by this message. */
    function OnFirstHandshake(peer: NodeId, msg: HandshakeMsg, pk: Option<StaticKey>, now: nat): (Core, seq<Frame>) {
      var p := table.Of(peer);
      if !p.CurrentInFlight() then Answer(peer, msg, pk, now, [])
      else if p.current.value.IsReply(msg) then FinishFirst(peer, msg, now)
      else if id < peer then this.(table := table.Remove(peer)).Answer(peer, msg, pk, now, table.Queued(peer))
      else (this, [])
    }

    function OnHandshake(peer: NodeId, msg: HandshakeMsg, pk: Option<StaticKey>, now: nat): (Core, seq<Frame>) {
      var p := table.Of(peer);
      if !p.NextInFlight() then OnFirstHandshake(peer, msg, pk, now)
      else if p.next.value.IsReply(msg) then FinishRekey(peer, msg, now)
      else if id < peer then WithPeer(peer, p.(next := None)).OnFirstHandshake(peer, msg, pk, now)
      else (this, [])
    }

    // ----- the view -----

    /** First critical section: the peer table is replaced. */
    function SyncBegin(members: Members): (Core, Sync) {
      (this.(peers := members),
       Sync(map m | m in members && m != id :: members[m].pubkey,
            set m | m in members && m in peers
                    && (peers[m].loginGen != members[m].loginGen || peers[m].pubkey != members[m].pubkey)))
    }

    /** Second critical section: sessions, queues and watermarks follow. */
    function SyncEnd(s: Sync): Core {
      this.(table := Forgotten(table, s.relogged).SyncView(s.published))
    }

    function ExpireSessions(now: nat): Core { this.(table := table.Expire(now)) }
  }

  /** The watermarks of every peer in `ids` reset. */
  function Forgotten(t: Table, ids: set<NodeId>): Table {
    t.(marks := map k | k in t.marks && k.0 !in ids :: t.marks[k])
  }

  // ---------- the msg1 clock ----------

  /** Every msg1 timestamp is strictly later than the last, exactly until the clock saturates. */
  lemma MsgOneClockAdvances(c: Core, clock: Tai64n)
    requires c.lastTs.secs <= U64_MAX
    ensures c.lastTs.Before(c.NextTs(clock)) <==> c.lastTs.Before(clock) || !c.lastTs.AtTheEnd()
  {
  }

  // ---------- the engine the program runs ----------

  class Engine {
    const id: NodeId
    const pub: StaticKey
    const uuid: nat
    const sessions: SessionTable
    var peers: Members
    var lastTs: Tai64n
    /** Which ephemeral the random source yields next. */
    var nextEph: nat

    ghost function State(): Core
      reads this, sessions
    {
      Core(id, pub, uuid, peers, sessions.State(), lastTs, nextEph)
    }

    constructor (id: NodeId, pub: StaticKey, uuid: nat, peers: Members, nextEph: nat)
      ensures State() == Core(id, pub, uuid, peers, EMPTY_TABLE, Tai64n(0, 0), nextEph)
      ensures fresh(sessions)
    {
      var t := new SessionTable();
      this.id, this.pub, this.uuid, this.peers, this.nextEph := id, pub, uuid, peers, nextEph;
      sessions, lastTs := t, Tai64n(0, 0);
    }

    method NextTimestamp(clock: Tai64n) returns (ts: Tai64n)
      modifies this`lastTs
      ensures ts == old(State()).NextTs(clock) && lastTs == ts
    {
      ts := clock;
      if !lastTs.Before(ts) {
        ts := lastTs.Succ();
      }
      lastTs := ts;
    }

    method DrawEphemeral() returns (e: Eph)
      modifies this`nextEph
      ensures e == old(State()).Fresh() && nextEph == old(nextEph) + 1
    {
      e := Eph(pub, nextEph);
      nextEph := nextEph + 1;
    }

    method BeginRekey(peer: NodeId, now: nat, clock: Tai64n) returns (fs: seq<Frame>)
      modifies this`lastTs, this`nextEph, sessions`sessions
      ensures (State(), fs) == old(State()).StartRekey(peer, PubkeyOf(peers, peer), now, clock)
    {
      var pk := PubkeyOf(peers, peer);
      if pk.None? {
        return [];
      }
      var ts := NextTimestamp(clock);
      var e := DrawEphemeral();
      var s := Initiate(uuid, id, pub, peer, pk.value, e, now);
      sessions.sessions := sessions.sessions[peer := sessions.Entry(peer).(next := Some(s))];
      fs := [Handshake(id, peer, Msg1(s.Hs(), ts))];
    }

    method SendPacket(peer: NodeId, pkt: Packet, now: nat, clock: Tai64n) returns (fs: seq<Frame>)
      modifies this`lastTs, this`nextEph, sessions
      ensures (State(), fs) == old(State()).Outbound(peer, pkt, PubkeyOf(peers, peer), now, clock)
    {
      if Ready(sessions.Entry(peer).current) {
        var ctr, ct := sessions.SealOn(peer, pkt);
        sessions.NoteSentTo(peer, now);
        fs := [Data(id, peer, ctr, ct)];
        if sessions.Entry(peer).RekeyDue(now) {
          var more := BeginRekey(peer, now, clock);
          fs := fs + more;
        }
        return;
      }
      var starting := sessions.Entry(peer).current.None? && sessions.Entry(peer).next.None?;
      var pk := if starting then PubkeyOf(peers, peer) else None;
      if starting && pk.None? {
        var _ := sessions.TakePending(peer);
        return [];
      }
      var _ := sessions.QueuePacket(peer, pkt);
      if pk.None? {
        return [];
      }
      var ts := NextTimestamp(clock);
      var e := DrawEphemeral();
      var s := Initiate(uuid, id, pub, peer, pk.value, e, now);
      sessions.sessions := sessions.sessions[
        peer := sessions.Entry(peer).(current := Some(s), next := None, awaitingSince := None)];
      fs := [Handshake(id, peer, Msg1(s.Hs(), ts))];
    }

    method Flush(peer: NodeId, now: nat) returns (fs: seq<Frame>)
      modifies sessions
      ensures (State(), fs) == old(State()).FlushPending(peer, now)
    {
      fs := [];
      if !Ready(sessions.Entry(peer).current) {
        return;
      }
      var queued := sessions.TakePending(peer);
      ghost var goal := State().SealAll(peer, queued);
      var i := 0;
      assert queued[0..] == queued && fs + goal.1 == goal.1;
      while i < |queued|
        invariant 0 <= i <= |queued|
        invariant State().table.IsReady(peer)
        invariant var (c, rest) := State().SealAll(peer, queued[i..]); goal.0 == c && goal.1 == fs + rest
      {
        ghost var rest := State().SealAll(peer, queued[i..]).1;
        var ctr, ct := sessions.SealOn(peer, queued[i]);
        assert queued[i..][1..] == queued[i + 1..];
        assert fs + rest == fs + [rest[0]] + rest[1..];
        fs := fs + [Data(id, peer, ctr, ct)];
        i := i + 1;
      }
      assert queued[i..] == [];
      assert fs + [] == fs;
      if fs != [] {
        sessions.NoteSentTo(peer, now);
      }
    }

    /** A data frame: what to send back, and the packet to check and write, if any. */
    method ReceiveData(src: NodeId, ctr: nat, ct: Cipher, now: nat) returns (fs: seq<Frame>, inner: Option<Packet>)
      modifies sessions`sessions
      ensures (State(), fs, inner) == old(State()).InboundData(src, ctr, ct, now)
    {
      var r := sessions.Unseal(src, ctr, ct, now);
      match r
      case Err(_) => return [], None;
      case Ok(v) =>
        if v == [] {
          return [], None;
        }
        if sessions.Entry(src).KeepaliveDue(now) {
          sessions.NoteSentTo(src, now);
          var n, k := sessions.SealOn(src, []);
          return [Data(id, src, n, k)], Some(v);
        }
        return [], Some(v);
    }

    /** Answer a first message; the caller flushes after releasing the lock. */
    method AnswerFirst(peer: NodeId, msg: HandshakeMsg, now: nat, carried: seq<Packet>) returns (fs: seq<Frame>)
      modifies this`nextEph, sessions
      ensures (State(), fs) == old(State()).Answer(peer, msg, PubkeyOf(peers, peer), now, carried)
    {
      if !IsInitiation(uuid, id, pub, peer, msg) {
        return [];
      }
      var f := DrawEphemeral();
      var s := Respond(msg, peer, f, now);
      if PubkeyOf(peers, peer) != Some(s.PeerStatic()) {
        return [];
      }
      var newer := sessions.AcceptHandshakeTs(peer, s.PeerStatic(), msg.ts);
      if !newer {
        return [];
      }
      var _ := sessions.InstallResponder(peer, s);
      ghost var goal := sessions.State().QueueAll(peer, carried);
      var i := 0;
      assert carried[0..] == carried;
      while i < |carried|
        invariant 0 <= i <= |carried| && nextEph == old(nextEph) + 1
        invariant goal == sessions.State().QueueAll(peer, carried[i..])
      {
        var _ := sessions.QueuePacket(peer, carried[i]);
        assert carried[i..][1..] == carried[i + 1..];
        i := i + 1;
      }
      assert carried[i..] == [];
      fs := [Handshake(id, peer, Msg2(s.stage.key))];
    }

    method ReceiveFirst(peer: NodeId, msg: HandshakeMsg, now: nat) returns (fs: seq<Frame>)
      modifies this`nextEph, sessions
      ensures (State(), fs) == old(State()).OnFirstHandshake(peer, msg, PubkeyOf(peers, peer), now)
    {
      var carried: seq<Packet> := [];
      var p := sessions.Entry(peer);
      if p.CurrentInFlight() {
        if p.current.value.IsReply(msg) {
          sessions.sessions := sessions.sessions[peer := p.(current := Some(p.current.value.Finish(msg)))];
          fs := Flush(peer, now);
          return;
        }
        if id < peer {
          carried := sessions.TakePending(peer);
          sessions.RemovePeer(peer);
          assert sessions.pending == old(sessions.pending) - {peer};
        } else {
          return [];
        }
      }
      fs := AnswerFirst(peer, msg, now, carried);
    }

    method ReceiveHandshake(peer: NodeId, msg: HandshakeMsg, now: nat) returns (fs: seq<Frame>)
      modifies this`nextEph, sessions
      ensures (State(), fs) == old(State()).OnHandshake(peer, msg, PubkeyOf(peers, peer), now)
    {
      var p := sessions.Entry(peer);
      if p.NextInFlight() {
        if p.next.value.IsReply(msg) {
          sessions.sessions := sessions.sessions[peer := p.(next := Some(p.next.value.Finish(msg)))];
          sessions.PromotePeer(peer, now);
          assert sessions.sessions ==
                 old(sessions.sessions)[peer := p.(next := Some(p.next.value.Finish(msg))).Promote(now)];
          var ctr, ct := sessions.SealOn(peer, []);
          sessions.NoteSentTo(peer, now);
          fs := Flush(peer, now);
          fs := fs + [Data(id, peer, ctr, ct)];
          return;
        }
        if id < peer {
          sessions.DropNext(peer);
        } else {
          return [];
        }
      }
      fs := ReceiveFirst(peer, msg, now);
    }

    /** Both critical sections of a view application, with nothing in between. */
    method SyncPeers(members: Members)
      modifies this`peers, sessions
      ensures var (c, s) := old(State()).SyncBegin(members); State() == c.SyncEnd(s)
    {
      var relogged := set m | m in members && m in peers
                              && (peers[m].loginGen != members[m].loginGen || peers[m].pubkey != members[m].pubkey);
      var published := map m | m in members && m != id :: members[m].pubkey;
      peers := members;
      ghost var t := sessions.State();
      var todo := relogged;
      assert Forgotten(t, {}).marks == t.marks;
      while todo != {}
        invariant todo <= relogged && peers == members
        invariant sessions.State() == Forgotten(t, relogged - todo)
        decreases todo
      {
        var m :| m in todo;
        sessions.ForgetHandshakeTs(m);
        todo := todo - {m};
        assert sessions.State().marks == Forgotten(t, relogged - todo).marks;
      }
      assert relogged - todo == relogged;
      var _ := sessions.SyncToView(published);
      assert sessions.State() == Forgotten(t, relogged).SyncView(published);
      assert old(State()).SyncBegin(members).1 == Sync(published, relogged);
    }

    method Expire(now: nat)
      modifies sessions`sessions
      ensures State() == old(State()).ExpireSessions(now)
    {
      var _ := sessions.ExpireAll(now);
    }
  }
}

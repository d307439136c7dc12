/**
 First handshake messages are answered once: whatever the network repeats, a node answers a peer's
 message under a key only if its timestamp is later than that of every one it answered before.
 */
module Freshness {
  import opened Base
  import opened Seal
  import opened Sessions
  import opened EngineSpec
  import opened Nodes

  /** The order of timestamps, by seconds and then nanoseconds. */
  predicate Later(t: Tai64n, u: Tai64n) {
    t.secs > u.secs || (t.secs == u.secs && t.nanos > u.nanos)
  }

  /** The step takes a first message of `peer` under `key` and sends a reply. */
  predicate Answers(n: Node, e: Event, peer: NodeId, key: StaticKey) {
    && Enabled(n, e) && e.Hear? && n.lock.peer == peer && e.msg.Msg1? && e.msg.hs.initStatic == key
    && exists f <- Step(n, e).1 :: f.Handshake? && f.msg.Msg2?
  }

  /** The step takes away what the node remembers of `peer` under `key`. */
  predicate Resets(n: Node, e: Event, peer: NodeId, key: StaticKey) {
    || e.Restart?
    || (e.ViewEnd? && e.i in n.syncs &&
        (peer in n.syncs[e.i].relogged || KeyIn(n.syncs[e.i].published, peer) != Some(key)))
  }

  /** Our own handshake with the peer is under way. */
  predicate Calling(c: Core, peer: NodeId) {
    var p := c.table.Of(peer);
    || (p.current.Some? && p.current.value.initiator && p.current.value.stage.InHandshake?)
    || (p.next.Some? && p.next.value.initiator && p.next.value.stage.InHandshake?)
  }

  /** What the node remembers of `peer` under `key` is `ts` or later. */
  predicate Remembers(n: Node, peer: NodeId, key: StaticKey, ts: Tai64n) {
    (peer, key) in n.core.table.marks && !Later(ts, n.core.table.marks[(peer, key)])
  }

  // ---------- one handshake message ----------

  /** A reply in the frames sent. */
  predicate Replies(fs: seq<Frame>) {
    exists f <- fs :: f.Handshake? && f.msg.Msg2?
  }

  /** A first message addressed to this node, under its own static key and the key published for its sender. */
  predicate Admissible(c: Core, peer: NodeId, msg: HandshakeMsg, pk: Option<StaticKey>) {
    && msg.Msg1? && msg.hs.uuid == c.uuid && msg.hs.initId == peer && msg.hs.respId == c.id
    && msg.hs.respStatic == c.pub && pk == Some(msg.hs.initStatic)
  }

  predicate Newer(c: Core, peer: NodeId, msg: HandshakeMsg)
    requires msg.Msg1?
  {
    var k := (peer, msg.hs.initStatic);
    k in c.table.marks ==> Later(msg.ts, c.table.marks[k])
  }

  lemma {:induction false} QueueAllMarks(t: Table, peer: NodeId, pkts: seq<Packet>)
    ensures t.QueueAll(peer, pkts).marks == t.marks
    decreases |pkts|
  {
    if pkts != [] {
      QueueAllMarks(t.Queue(peer, pkts[0]), peer, pkts[1..]);
    }
  }

  lemma AnswerIff(c: Core, peer: NodeId, msg: HandshakeMsg, pk: Option<StaticKey>, now: nat, carried: seq<Packet>)
    ensures var (d, fs) := c.Answer(peer, msg, pk, now, carried);
            && (Replies(fs) <==> Admissible(c, peer, msg, pk) && Newer(c, peer, msg))
            && d.table.marks == if Replies(fs) then c.table.marks[(peer, msg.hs.initStatic) := msg.ts]
               else c.table.marks
  {
    var (d, fs) := c.Answer(peer, msg, pk, now, carried);
    if Admissible(c, peer, msg, pk) {
      var s := Respond(msg, peer, c.Fresh(), now);
      var t := c.table.NoteTs(peer, s.PeerStatic(), msg.ts).With(peer, c.table.Of(peer).InstallResponder(s));
      QueueAllMarks(t, peer, carried);
      assert Newer(c, peer, msg) ==> fs[0].Handshake? && fs[0].msg.Msg2?;
    }
  }

  lemma {:induction false} SealAllMarks(c: Core, peer: NodeId, pkts: seq<Packet>)
    requires c.table.IsReady(peer)
    ensures c.SealAll(peer, pkts).0.table.marks == c.table.marks
    ensures forall f <- c.SealAll(peer, pkts).1 :: f.Data?
    decreases |pkts|
  {
    if pkts != [] {
      SealAllMarks(c.SealTo(peer, pkts[0]).0, peer, pkts[1..]);
    }
  }

  lemma FlushMarks(c: Core, peer: NodeId, now: nat)
    ensures c.FlushPending(peer, now).0.table.marks == c.table.marks
    ensures forall f <- c.FlushPending(peer, now).1 :: f.Data?
  {
    if c.table.IsReady(peer) {
      SealAllMarks(c.(table := c.table.DropPending(peer)), peer, c.table.Queued(peer));
    }
  }

  lemma FirstHandshakeIff(c: Core, peer: NodeId, msg: HandshakeMsg, pk: Option<StaticKey>, now: nat)
    requires msg.Msg1?
    ensures var (d, fs) := c.OnFirstHandshake(peer, msg, pk, now);
            && (Replies(fs) <==> && Admissible(c, peer, msg, pk) && Newer(c, peer, msg)
                                 && (c.table.Of(peer).CurrentInFlight() ==> c.id < peer))
            && d.table.marks == if Replies(fs) then c.table.marks[(peer, msg.hs.initStatic) := msg.ts]
               else c.table.marks
  {
    if !c.table.Of(peer).CurrentInFlight() {
      AnswerIff(c, peer, msg, pk, now, []);
    } else {
      AnswerIff(c.(table := c.table.Remove(peer)), peer, msg, pk, now, c.table.Queued(peer));
    }
  }

  /**
   A first message is answered exactly if it is addressed to us under the key published for its sender, its
   timestamp is later than the last one answered, and a handshake of our own, if any, has to yield.
   */
  lemma HandshakeAnswersIff(c: Core, peer: NodeId, msg: HandshakeMsg, pk: Option<StaticKey>, now: nat)
    requires msg.Msg1?
    ensures var (d, fs) := c.OnHandshake(peer, msg, pk, now);
            && (Replies(fs) <==> && Admissible(c, peer, msg, pk) && Newer(c, peer, msg)
                                 && (Calling(c, peer) ==> c.id < peer))
            && d.table.marks == if Replies(fs) then c.table.marks[(peer, msg.hs.initStatic) := msg.ts]
               else c.table.marks
  {
    var p := c.table.Of(peer);
    FirstHandshakeIff(c, peer, msg, pk, now);
    if p.NextInFlight() {
      FirstHandshakeIff(c.WithPeer(peer, p.(next := None)), peer, msg, pk, now);
    }
  }

  /** Any other handshake message leaves the watermarks alone. */
  lemma OtherMessageMarks(c: Core, peer: NodeId, msg: HandshakeMsg, pk: Option<StaticKey>, now: nat)
    requires !msg.Msg1?
    ensures c.OnHandshake(peer, msg, pk, now).0.table.marks == c.table.marks
  {
    var p := c.table.Of(peer);
    if p.NextInFlight() && p.next.value.IsReply(msg) {
      var c1 := c.WithPeer(peer, p.(next := Some(p.next.value.Finish(msg))).Promote(now));
      var (d, _) := c1.SealTo(peer, []);
      FlushMarks(d.(table := d.table.NoteSent(peer, now)), peer, now);
    } else if p.CurrentInFlight() && p.current.value.IsReply(msg) {
      FlushMarks(c.WithPeer(peer, p.(current := Some(p.current.value.Finish(msg)))), peer, now);
      if p.NextInFlight() {
        var q := p.(next := None);
        FlushMarks(c.WithPeer(peer, q).WithPeer(peer, q.(current := Some(p.current.value.Finish(msg)))), peer, now);
      }
    }
  }

  // ---------- every step ----------

  /** One step of the node, exactly when it answers. */
  lemma AnswersIff(n: Node, msg: HandshakeMsg, now: nat, peer: NodeId, key: StaticKey)
    requires Enabled(n, Hear(msg, now)) && n.lock.peer == peer && msg.Msg1? && msg.hs.initStatic == key
    ensures Answers(n, Hear(msg, now), peer, key) <==>
            && Admissible(n.core, peer, msg, n.lock.pk) && Newer(n.core, peer, msg)
            && (Calling(n.core, peer) ==> n.core.id < peer)
  {
    HandshakeAnswersIff(n.core, peer, msg, n.lock.pk, now);
  }

  lemma OutboundMarks(c: Core, peer: NodeId, pkt: Packet, pk: Option<StaticKey>, now: nat, clock: Tai64n)
    ensures c.Outbound(peer, pkt, pk, now, clock).0.table.marks == c.table.marks
  {
  }

  lemma InboundMarks(c: Core, src: NodeId, ctr: nat, ct: Cipher, now: nat)
    ensures c.InboundData(src, ctr, ct, now).0.table.marks == c.table.marks
  {
  }

  lemma StepMarks(n: Node, e: Event)
    requires Enabled(n, e) && !e.Restart? && !e.ViewEnd? && !(e.Hear? && e.msg.Msg1?)
    ensures Step(n, e).0.core.table.marks == n.core.table.marks
  {
    match e
    case Hear(msg, now) => OtherMessageMarks(n.core, n.lock.peer, msg, n.lock.pk, now);
    case Flush(peer, now) => FlushMarks(n.core, peer, now);
    case Send(pkt, now, clock) => OutboundMarks(n.core, n.lock.peer, pkt, n.lock.pk, now, clock);
    case Receive(src, ctr, ct, now) => InboundMarks(n.core, src, ctr, ct, now);
    case _ =>
  }

  /** What is remembered only moves on, until it is taken away. */
  lemma StillRemembers(n: Node, e: Event, peer: NodeId, key: StaticKey, ts: Tai64n)
    requires Enabled(n, e) && Remembers(n, peer, key, ts) && !Resets(n, e, peer, key)
    ensures Remembers(Step(n, e).0, peer, key, ts)
  {
    if e.Hear? && e.msg.Msg1? {
      HandshakeAnswersIff(n.core, n.lock.peer, e.msg, n.lock.pk, e.now);
    } else if !e.ViewEnd? {
      StepMarks(n, e);
    }
  }

  lemma AnswerIsRemembered(n: Node, e: Event, peer: NodeId, key: StaticKey)
    requires Answers(n, e, peer, key)
    ensures Remembers(Step(n, e).0, peer, key, e.msg.ts)
  {
    HandshakeAnswersIff(n.core, peer, e.msg, n.lock.pk, e.now);
  }

  lemma {:induction false} RemembersUntil(run: seq<Node>, es: seq<Event>, i: nat, j: nat, peer: NodeId, key: StaticKey)
    requires IsTrace(run, es) && i < j < |run| && Answers(run[i], es[i], peer, key)
    requires forall k :: i < k < j ==> !Resets(run[k], es[k], peer, key)
    ensures Remembers(run[j], peer, key, es[i].msg.ts)
    decreases j
  {
    assert Took(run, es, j - 1);
    if j == i + 1 {
      AnswerIsRemembered(run[i], es[i], peer, key);
    } else {
      RemembersUntil(run, es, i, j - 1, peer, key);
      StillRemembers(run[j - 1], es[j - 1], peer, key, es[i].msg.ts);
    }
  }

  /**
   In every run, whatever is repeated or injected: of two first messages of one peer under one key
   that a node answered, with no restart and no reset of that peer in between, the second one
   carries the later timestamp. So none is ever answered twice.
   */
  lemma NoHandshakeIsAnsweredTwice(run: seq<Node>, es: seq<Event>, i: nat, j: nat, peer: NodeId, key: StaticKey)
    requires IsTrace(run, es) && i < j < |es|
    requires Answers(run[i], es[i], peer, key) && Answers(run[j], es[j], peer, key)
    requires forall k :: i < k < j ==> !Resets(run[k], es[k], peer, key)
    ensures Later(es[j].msg.ts, es[i].msg.ts)
  {
    RemembersUntil(run, es, i, j, peer, key);
    AnswersIff(run[j], es[j].msg, es[j].now, peer, key);
  }
}

/**
 Any number of endpoints over a network that drops, duplicates, reorders, re-attributes and
 injects frames. It may deliver any handshake message whatever, any ciphertext sealed by
 anyone, and any ciphertext under a key that involves a static key no endpoint here holds;
 the transport key of a handshake between two endpoints' static keys is known to nobody else.
 */
module Network {
  import opened Base
  import opened Seal
  import opened Sessions
  import opened EngineSpec
  import opened Nodes
  import opened Authenticity

  // ---------- one node, whatever arrives ----------

  predicate NodeInv(n: Node) {
    && CoreInv(n.core, n.past)
    && (n.lock.Held? && n.lock.pk.Some? ==> (n.lock.peer, n.lock.pk.value) in n.past.vouched)
    && n.waiting <= n.past.decrypted
    && (forall i :: 0 <= i < |n.tun| ==> n.tun[i] in n.past.decrypted && n.tun[i] !in n.waiting)
    && (forall i, j :: 0 <= i < j < |n.tun| ==> n.tun[i] != n.tun[j])
  }

  /** Sections under the lock, whose key was read from a view. */
  lemma LockedStepSound(n: Node, e: Event)
    requires NodeInv(n) && Enabled(n, e) && (e.Send? || e.Hear?)
    ensures NodeInv(Step(n, e).0) && SameIdentity(n.core, Step(n, e).0.core)
  {
    match e {
      case Send(pkt, now, clock) => OutboundSound(n.core, n.past, n.lock.peer, pkt, n.lock.pk, now, clock);
      case Hear(msg, now) => HandshakeSound(n.core, n.past, n.lock.peer, msg, n.lock.pk, now);
    }
  }

  lemma ReceiveStepSound(n: Node, e: Event)
    requires NodeInv(n) && Enabled(n, e) && e.Receive?
    ensures NodeInv(Step(n, e).0) && SameIdentity(n.core, Step(n, e).0.core)
  {
    InboundSound(n.core, n.past, e.src, e.ctr, e.ct, e.now);
  }

  lemma NodeStepSound(n: Node, e: Event)
    requires NodeInv(n) && Enabled(n, e)
    ensures NodeInv(Step(n, e).0)
    ensures var c := Step(n, e).0.core; c.id == n.core.id && c.pub == n.core.pub && c.uuid == n.core.uuid
    ensures n.past.log <= Step(n, e).0.past.log
    ensures Step(n, e).0.past.log == n.past.log + DataIn(Step(n, e).1)
  {
    match e
    case TakeLock(_) =>
    case Send(_, _, _) => LockedStepSound(n, e);
    case Hear(_, _) => LockedStepSound(n, e);
    case Receive(_, _, _, _) => ReceiveStepSound(n, e);
    case WriteTun(_, _) =>
    case Flush(peer, now) => FlushSound(n.core, n.past, peer, now);
    case Sweep(now) => SweepSound(n.core, n.past, now);
    case ViewBegin(members) => ViewBeginSound(n.core, n.past, members);
    case ViewEnd(i) => ViewEndSound(n.core, n.past, n.syncs[i]);
    case Restart => Shrinks(n.core, n.past, n.core.(table := EMPTY_TABLE));
  }

  // ---------- the world ----------

  /** Endpoints by their static key, and every frame any of them ever sent. */
  datatype World = World(nodes: map<StaticKey, Node>, sent: set<Frame>)

  /** A transport key only the two endpoints of its handshake can hold. */
  predicate Protected(w: World, k: PairKey) {
    k.hs.initStatic in w.nodes && k.hs.respStatic in w.nodes
  }

  /** What the network can put in front of an endpoint. */
  predicate CanArrive(w: World, e: Event) {
    e.Receive? && e.ct.Sealed? && Protected(w, e.ct.key) ==>
      exists f <- w.sent :: f.Data? && f.ct == e.ct
  }

  predicate WorldEnabled(w: World, k: StaticKey, e: Event) {
    k in w.nodes && Enabled(w.nodes[k], e) && CanArrive(w, e)
  }

  function WorldStep(w: World, k: StaticKey, e: Event): World
    requires WorldEnabled(w, k, e)
  {
    var (n, fs) := Step(w.nodes[k], e);
    World(w.nodes[k := n], w.sent + (set f | f in fs))
  }

  predicate Initial(w: World) {
    && w.sent == {}
    && forall k <- w.nodes :: w.nodes[k] == Fresh(w.nodes[k].core.id, k, w.nodes[k].core.uuid)
  }

  ghost predicate WorldFollows(w: World, v: World) {
    exists k, e: Event :: WorldEnabled(w, k, e) && v == WorldStep(w, k, e)
  }

  ghost predicate IsWorldRun(run: seq<World>) {
    && |run| > 0 && Initial(run[0])
    && forall i :: 0 < i < |run| ==> WorldFollows(run[i - 1], run[i])
  }

  /** Every data frame on the wire is in the log of the endpoint whose key it names. */
  predicate Logged(w: World) {
    && (forall k <- w.nodes :: w.nodes[k].core.pub == k && NodeInv(w.nodes[k]))
    && (forall f <- w.sent :: f.Data? ==>
          && f.ct.Sealed? && var k := SealerStatic(f.ct.key, f.ct.byInitiator);
          && k in w.nodes && f in w.nodes[k].past.log)
  }

  predicate WorldInv(w: World) {
    && Logged(w)
    && (forall k <- w.nodes :: forall o <- w.nodes[k].past.decrypted :: Genuine(w, k, o))
  }

  /** The frame that carried `o` to the endpoint `me`, as its sealer sent it. */
  function Carrier(o: Opened, me: NodeId): Frame {
    Data(o.src, me, o.ctr, Sealed(o.key, o.byInitiator, o.ctr, o.payload))
  }

  /** If an endpoint holds the key the packet authenticates to, that endpoint has the
      packet's source id and sealed exactly this packet for us. */
  predicate Genuine(w: World, k: StaticKey, o: Opened)
    requires k in w.nodes
  {
    var from := SealerStatic(o.key, o.byInitiator);
    && (o.src, from) in w.nodes[k].past.vouched
    && (from in w.nodes ==>
          && w.nodes[from].core.id == o.src
          && Carrier(o, w.nodes[k].core.id) in w.nodes[from].past.log)
  }

  /** A packet new in a node's history is the payload of the frame it received just now. */
  lemma NewPacketIsReceived(n: Node, e: Event, o: Opened)
    requires NodeInv(n) && Enabled(n, e) && o in Step(n, e).0.past.decrypted && o !in n.past.decrypted
    ensures e.Receive? && e.ct.Sealed? && e.ct == Sealed(o.key, o.byInitiator, o.ctr, o.payload)
  {
    assert e.Receive?;
    InboundSound(n.core, n.past, e.src, e.ctr, e.ct, e.now);
  }

  /** The sealer of a logged frame has the identity its key names. */
  lemma LoggedFrameIsCarrier(w: World, from: StaticKey, f: Frame, o: Opened, me: NodeId)
    requires Logged(w) && from in w.nodes && f in w.nodes[from].past.log && f.Data?
    requires f.ct == Sealed(o.key, o.byInitiator, o.ctr, o.payload)
    requires o.src == SealerId(o.key, o.byInitiator) && me == SealerId(o.key, !o.byInitiator)
    ensures w.nodes[from].core.id == o.src && f == Carrier(o, me)
  {
    assert NodeInv(w.nodes[from]);
    assert LogEntryOk(w.nodes[from].core, w.nodes[from].past, f);
  }

  /** A packet opened from a frame the network could deliver is genuine. */
  lemma NewPacketsAreGenuine(w: World, k: StaticKey, e: Event, o: Opened)
    requires WorldInv(w) && WorldEnabled(w, k, e) && Logged(WorldStep(w, k, e))
    requires o in WorldStep(w, k, e).nodes[k].past.decrypted && o !in w.nodes[k].past.decrypted
    ensures Genuine(WorldStep(w, k, e), k, o)
  {
    var v := WorldStep(w, k, e);
    var n := v.nodes[k];
    assert NodeInv(w.nodes[k]) && NodeInv(n);
    NewPacketIsReceived(w.nodes[k], e, o);
    assert OpenedOk(n.core, n.past, o);
    var from := SealerStatic(o.key, o.byInitiator);
    if from in w.nodes {
      assert Protected(w, o.key);
      var f :| f in w.sent && f.Data? && f.ct == e.ct;
      LoggedFrameIsCarrier(w, from, f, o, n.core.id);
      NodeStepSound(w.nodes[k], e);
    }
  }

  lemma SentFramesAreLogged(w: World, k: StaticKey, e: Event)
    requires Logged(w) && WorldEnabled(w, k, e)
    ensures Logged(WorldStep(w, k, e))
  {
    var v := WorldStep(w, k, e);
    NodeStepSound(w.nodes[k], e);
    var n := v.nodes[k];
    forall f | f in v.sent && f.Data?
      ensures f.ct.Sealed?
      ensures var s := SealerStatic(f.ct.key, f.ct.byInitiator); s in v.nodes && f in v.nodes[s].past.log
    {
      if f !in w.sent {
        assert f in DataIn(Step(w.nodes[k], e).1);
        assert LogEntryOk(n.core, n.past, f);
      }
    }
  }

  /** Logs and vouched keys only grow, so what was genuine stays so. */
  lemma GenuineStays(w: World, k: StaticKey, e: Event, x: StaticKey, o: Opened)
    requires Logged(w) && WorldEnabled(w, k, e) && x in w.nodes && Genuine(w, x, o)
    ensures Genuine(WorldStep(w, k, e), x, o)
  {
    assert NodeInv(w.nodes[k]);
    NodeStepSound(w.nodes[k], e);
  }

  lemma WorldStepKeeps(w: World, k: StaticKey, e: Event)
    requires WorldInv(w) && WorldEnabled(w, k, e)
    ensures WorldInv(WorldStep(w, k, e))
  {
    SentFramesAreLogged(w, k, e);
    var v := WorldStep(w, k, e);
    forall x, o | x in v.nodes && o in v.nodes[x].past.decrypted
      ensures Genuine(v, x, o)
    {
      if o in w.nodes[x].past.decrypted {
        GenuineStays(w, k, e, x, o);
      } else {
        NewPacketsAreGenuine(w, k, e, o);
      }
    }
  }

  lemma InitialWorldInv(w: World)
    requires Initial(w)
    ensures WorldInv(w)
  {
    forall k | k in w.nodes
      ensures w.nodes[k].core.pub == k && NodeInv(w.nodes[k]) && w.nodes[k].past.decrypted == {}
    {
      var n := w.nodes[k];
      assert n == Fresh(n.core.id, k, n.core.uuid);
    }
  }

  lemma WorldFollowsKeeps(w: World, v: World)
    requires WorldInv(w) && WorldFollows(w, v)
    ensures WorldInv(v)
  {
    var k, e: Event :| WorldEnabled(w, k, e) && v == WorldStep(w, k, e);
    WorldStepKeeps(w, k, e);
  }

  lemma {:induction false} WorldRunKeeps(run: seq<World>)
    requires IsWorldRun(run)
    ensures WorldInv(run[|run| - 1])
  {
    var i := |run| - 1;
    if i == 0 {
      InitialWorldInv(run[0]);
    } else {
      assert run[..i][i - 1] == run[i - 1];
      WorldRunKeeps(run[..i]);
      WorldFollowsKeeps(run[i - 1], run[i]);
    }
  }

  /**
   In every run, across any mix of rekeys, promotions, crossed handshakes, expiries, view
   syncs and restarts: whatever an endpoint wrote to its TUN from a peer was sealed by that
   peer for it, and no sealed frame was written twice.
   */
  lemma DeliveredOnceAndGenuine(run: seq<World>, k: StaticKey, i: nat)
    requires IsWorldRun(run) && k in run[|run| - 1].nodes
    requires i < |run[|run| - 1].nodes[k].tun|
    ensures var w := run[|run| - 1]; Genuine(w, k, w.nodes[k].tun[i])
    ensures var tun := run[|run| - 1].nodes[k].tun;
            forall j :: 0 <= j < |tun| && j != i ==> !SameCounter(tun[i], tun[j])
  {
    WorldRunKeeps(run);
    assert NodeInv(run[|run| - 1].nodes[k]);
  }

  /** No endpoint ever seals two different frames under one key, direction and nonce. */
  lemma NoncesNeverReused(run: seq<World>, k: StaticKey, f: Frame, g: Frame)
    requires IsWorldRun(run) && k in run[|run| - 1].nodes
    requires var log := run[|run| - 1].nodes[k].past.log; f in log && g in log
    ensures SameNonce(f, g) ==> f == g
  {
    WorldRunKeeps(run);
    assert NodeInv(run[|run| - 1].nodes[k]);
  }
}

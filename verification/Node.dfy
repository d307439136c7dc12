/**
 One endpoint at lock granularity. An event is one critical section: a thread that needs a
 peer's published key takes the sessions lock, reads the key under the peers lock, and only
 then acts; a view application replaces the peer table first and the sessions later.
 */
module Nodes {
  import opened Base
  import opened Seal
  import opened Sessions
  import opened EngineSpec

  datatype Lock = Free | Held(peer: NodeId, pk: Option<StaticKey>)

  /** A packet this node decrypted: who it is attributed to and the frame it came in. */
  datatype Opened = Opened(src: NodeId, key: PairKey, byInitiator: bool, ctr: nat, payload: Packet)

  /** What a node has done since it was first started, restarts included. */
  datatype History = History(
    // Whom each ephemeral was drawn for.
    drawn: seq<NodeId>,
    // Every (member, key) pair a view ever published here.
    vouched: set<(NodeId, StaticKey)>,
    // Every data frame sealed here.
    log: set<Frame>,
    // Every data packet opened here.
    decrypted: set<Opened>)

  /** The engine, its locks, and its history; `waiting` packets are decrypted but not yet
      through the ingress filter, `tun` is what was written to the device. */
  datatype Node = Node(
    core: Core,
    lock: Lock,
    syncs: map<nat, Sync>, begun: nat,
    past: History,
    waiting: set<Opened>, tun: seq<Opened>)

  datatype Event =
    | TakeLock(peer: NodeId)
    | Send(pkt: Packet, now: nat, clock: Tai64n)
    | Hear(msg: HandshakeMsg, now: nat)
    | Receive(src: NodeId, ctr: nat, ct: Cipher, now: nat)
    | WriteTun(o: Opened, accept: bool)
    | Flush(peer: NodeId, now: nat)
    | Sweep(now: nat)
    | ViewBegin(members: Members)
    | ViewEnd(i: nat)
    | Restart

  predicate Enabled(n: Node, e: Event) {
    match e
    case TakeLock(_) => n.lock.Free?
    // The outbound table never names this node itself.
    case Send(_, _, _) => n.lock.Held? && n.lock.peer != n.core.id
    case Hear(_, _) => n.lock.Held?
    case Receive(_, _, _, _) => n.lock.Free?
    case WriteTun(o, _) => o in n.waiting
    case Flush(_, _) => n.lock.Free?
    case Sweep(_) => n.lock.Free?
    case ViewBegin(_) => true
    case ViewEnd(i) => n.lock.Free? && i in n.syncs
    case Restart => true
  }

  function DataIn(fs: seq<Frame>): set<Frame> {
    set f | f in fs && f.Data?
  }

  /** The history once the engine stands at `c`, having sent `fs`; an ephemeral it drew was for `peer`. */
  function Record(h: History, peer: NodeId, c: Core, fs: seq<Frame>): History {
    h.(log := h.log + DataIn(fs), drawn := if c.nextEph == |h.drawn| then h.drawn else h.drawn + [peer])
  }

  function Moved(n: Node, peer: NodeId, c: Core, fs: seq<Frame>): Node {
    n.(core := c, past := Record(n.past, peer, c, fs))
  }

  function Step(n: Node, e: Event): (Node, seq<Frame>)
    requires Enabled(n, e)
  {
    match e
    case TakeLock(peer) => (n.(lock := Held(peer, PubkeyOf(n.core.peers, peer))), [])
    case Send(pkt, now, clock) =>
      var (c, fs) := n.core.Outbound(n.lock.peer, pkt, n.lock.pk, now, clock);
      (Moved(n, n.lock.peer, c, fs).(lock := Free), fs)
    case Hear(msg, now) =>
      var (c, fs) := n.core.OnHandshake(n.lock.peer, msg, n.lock.pk, now);
      (Moved(n, n.lock.peer, c, fs).(lock := Free), fs)
    case Receive(src, ctr, ct, now) =>
      var (c, fs, inner) := n.core.InboundData(src, ctr, ct, now);
      var m := Moved(n, src, c, fs);
      if inner.None? || !ct.Sealed? then (m, fs) else
      var o := Opened(src, ct.key, ct.byInitiator, ctr, inner.value);
      (m.(past := m.past.(decrypted := m.past.decrypted + {o}), waiting := m.waiting + {o}), fs)
    case WriteTun(o, accept) =>
      (n.(waiting := n.waiting - {o}, tun := if accept then n.tun + [o] else n.tun), [])
    case Flush(peer, now) =>
      var (c, fs) := n.core.FlushPending(peer, now);
      (Moved(n, peer, c, fs), fs)
    case Sweep(now) => (n.(core := n.core.ExpireSessions(now)), [])
    case ViewBegin(members) =>
      var (c, s) := n.core.SyncBegin(members);
      (n.(core := c, syncs := n.syncs[n.begun + 1 := s], begun := n.begun + 1,
          past := n.past.(vouched := n.past.vouched + Vouched(members))), [])
    case ViewEnd(i) => (n.(core := n.core.SyncEnd(n.syncs[i]), syncs := n.syncs - {i}), [])
    case Restart =>
      (n.(core := n.core.(peers := map[], table := EMPTY_TABLE, lastTs := Tai64n(0, 0)),
          lock := Free, syncs := map[], waiting := {}), [])
  }

  function Vouched(members: Members): set<(NodeId, StaticKey)> {
    set m | m in members && members[m].pubkey.Some? :: (m, members[m].pubkey.value)
  }

  function Fresh(id: NodeId, pub: StaticKey, uuid: nat): Node {
    Node(Core(id, pub, uuid, map[], EMPTY_TABLE, Tai64n(0, 0), 0), Free, map[], 0, History([], {}, {}, {}), {}, [])
  }

  /** A run of one node: any critical sections, in any order, on any input. */
  ghost predicate IsRun(run: seq<Node>) {
    && |run| > 0
    && (exists id, pub, uuid :: run[0] == Fresh(id, pub, uuid))
    && forall i :: 0 < i < |run| ==> Follows(run[i - 1], run[i])
  }

  ghost predicate Follows(n: Node, m: Node) {
    exists e: Event :: Enabled(n, e) && m == Step(n, e).0
  }

  /** A run together with what happened in it: `es[i]` led from the `i`th state to the next. */
  ghost predicate IsTrace(run: seq<Node>, es: seq<Event>) {
    && |run| == |es| + 1
    && (exists id, pub, uuid :: run[0] == Fresh(id, pub, uuid))
    && forall i {:trigger Took(run, es, i)} :: 0 <= i < |es| ==> Took(run, es, i)
  }

  predicate Took(run: seq<Node>, es: seq<Event>, i: nat)
    requires |run| == |es| + 1 && i < |es|
  {
    Enabled(run[i], es[i]) && run[i + 1] == Step(run[i], es[i]).0
  }
}

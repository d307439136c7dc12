/**
 The coordinator's control sessions: the push queue of each connection, catching a session up,
 broadcasting a delta, folding a report in, and the durable generation mark.
 */
module Control {
  import opened Base
  import opened Snapshots
  import opened Directories

  const PUSH_QUEUE := 256
  const GEN_PERSIST_STEP := 1000

  type ConnId = nat

  datatype Push = PushDelta(d: Delta) | PushSnapshot(s: Snapshot) | Raw | Close

  // `wire` is what the writer already sent and the holder has not read yet; `up` says that the
  // queue still has its writer; `closing` that the transport was told to close.
  datatype Conn = Conn(inst: nat, chan: seq<Push>, wire: seq<Push>, up: bool, closing: bool) {
    function Queue(): seq<Push> {
      wire + chan
    }

    /** What the holder can still read: once the transport is closed, only what was already sent. */
    function Coming(): seq<Push> {
      if closing then wire else wire + chan
    }

    predicate Room() {
      up && |chan| < PUSH_QUEUE
    }
  }

  datatype Session = Session(conn: ConnId, synced: bool)

  // What a holder reports: its generation, and its content (the digest is a function of it).
  datatype Report = Report(gen: nat, content: Snapshot)

  /** Content apart from its generation: equal content, equal digest. */
  function Digest(s: Snapshot): Snapshot {
    Normalized(s.(gen := 0))
  }

  /** Queue a push if there is room for it; otherwise the connection is closed. */
  function Offer(c: Conn, p: Push): Conn {
    if c.Room() then c.(chan := c.chan + [p]) else c.(closing := true)
  }

  /** One push after another until one does not fit; then the session is closed. */
  function SendAll(c: Conn, ps: seq<Push>): (Conn, bool)
    decreases |ps|
  {
    if ps == [] then (c, true)
    else if c.Room() then SendAll(Offer(c, ps[0]), ps[1..])
    else (c.(closing := true), false)
  }

  /** The end of a superseded connection: told to close, and closed. */
  function Superseded(c: Conn): Conn {
    Offer(c, Close).(closing := true)
  }

  function DeltaPushes(chain: seq<Delta>): seq<Push> {
    seq(|chain|, i requires 0 <= i < |chain| => PushDelta(chain[i]))
  }

  function InitialGen(mark: nat, nowMs: nat): nat {
    Max(nowMs, mark + GEN_PERSIST_STEP)
  }

  function NoteGen(mark: nat, gen: nat): nat {
    if gen >= mark then gen + GEN_PERSIST_STEP else mark
  }

  datatype NetView = NetView(
    dir: Dir,
    mark: nat,
    sessions: map<NodeId, Session>,
    conns: map<ConnId, Conn>)
  {
    predicate Valid() {
      && (forall n <- sessions :: sessions[n].conn in conns)
      && (forall n <- sessions, k <- sessions :: sessions[n].conn == sessions[k].conn ==> n == k)
    }

    /** The same sessions on the same connections, whatever their flags and queues. */
    ghost predicate SameSeats(after: NetView) {
      && after.sessions.Keys == sessions.Keys && after.conns.Keys == conns.Keys
      && (forall n <- sessions :: after.sessions[n].conn == sessions[n].conn)
      && (forall c <- conns :: after.conns[c].inst == conns[c].inst)
    }

    /** What brings a holder of `have` to the current view: a chain of deltas, or the whole view. */
    function Pushes(have: nat): seq<Push> {
      match DeltasSince(dir, have)
      case Some(chain) => DeltaPushes(chain)
      case None => [PushSnapshot(dir.published)]
    }

    function CatchUp(node: NodeId, have: nat): (r: NetView)
      requires Valid()
      ensures r.Valid() && SameSeats(r)
    {
      if node !in sessions then this else
      var s := sessions[node];
      var (c, ok) := SendAll(conns[s.conn], Pushes(have));
      SendAllKeepsOwner(conns[s.conn], Pushes(have));
      this.(sessions := sessions[node := s.(synced := ok)], conns := conns[s.conn := c])
    }

    /** Is this the connection of a synced session of one of `nodes`? */
    predicate Followed(c: ConnId, nodes: set<NodeId>)
      requires nodes <= sessions.Keys
    {
      exists n <- nodes :: sessions[n].conn == c && sessions[n].synced
    }

    function Told(n: NodeId): Session
      requires Valid() && n in sessions
    {
      sessions[n].(synced := sessions[n].synced && conns[sessions[n].conn].Room())
    }

    /** The broadcast after it reached the sessions of `nodes`. */
    function BroadcastTo(nodes: set<NodeId>, d: Delta): NetView
      requires Valid() && nodes <= sessions.Keys
    {
      this.(
      sessions := map n | n in sessions :: if n in nodes then Told(n) else sessions[n],
      conns := map c | c in conns :: if Followed(c, nodes) then Offer(conns[c], PushDelta(d)) else conns[c])
    }

    function Broadcast(d: Delta): (r: NetView)
      requires Valid()
      ensures r.Valid() && SameSeats(r)
    {
      BroadcastTo(sessions.Keys, d)
    }

    /** A broadcast queues its delta exactly on the connections of synced sessions that have room. */
    lemma BroadcastQueue(d: Delta, c: ConnId)
      requires Valid() && c in conns
      ensures var after := Broadcast(d);
              && c in after.conns && after.conns[c].inst == conns[c].inst
              && (!Followed(c, sessions.Keys) ==> after.conns[c] == conns[c])
              && after.conns[c].Queue() ==
                 if Followed(c, sessions.Keys) && conns[c].Room() then conns[c].Queue() + [PushDelta(d)]
                   else conns[c].Queue()
    {
      assert Offer(conns[c], PushDelta(d)).Queue() ==
             if conns[c].Room() then conns[c].Queue() + [PushDelta(d)] else conns[c].Queue();
    }

    lemma NoneTold(d: Delta)
      requires Valid()
      ensures BroadcastTo({}, d) == this
    {
      assert BroadcastTo({}, d).sessions == sessions;
      assert BroadcastTo({}, d).conns == conns;
    }

    lemma OneMoreTold(nodes: set<NodeId>, n: NodeId, d: Delta)
      requires Valid() && nodes <= sessions.Keys && n in sessions && n !in nodes
      ensures var part, s := BroadcastTo(nodes, d), sessions[n];
              && part.sessions[n] == s && part.conns[s.conn] == conns[s.conn]
              && BroadcastTo(nodes + {n}, d) ==
                 if s.synced
                 then part.(sessions := part.sessions[n := Told(n)],
                            conns := part.conns[s.conn := Offer(conns[s.conn], PushDelta(d))])
                 else part
    {
      var s := sessions[n];
      forall c | c in conns
        ensures Followed(c, nodes + {n}) <==> Followed(c, nodes) || (c == s.conn && s.synced)
      {
        if c == s.conn && s.synced { assert n in nodes + {n}; }
      }
      var part, more := BroadcastTo(nodes, d), BroadcastTo(nodes + {n}, d);
      assert !Followed(s.conn, nodes);
      if !s.synced {
        assert more.sessions == part.sessions && more.conns == part.conns;
      }
    }

    function Publish(content: Snapshot, nowMs: nat): (r: NetView)
      requires Valid()
      ensures r.Valid() && SameSeats(r)
    {
      var (after, d) := Recomputed(dir, content, nowMs);
      if d.None? then this
      else this.(dir := after, mark := NoteGen(mark, after.gen)).Broadcast(d.value)
    }

    function Seated(node: NodeId, conn: ConnId, inst: nat): (r: NetView)
      requires Valid() && conn !in conns
      ensures r.Valid()
    {
      this.(sessions := sessions[node := Session(conn, false)],
            conns := conns[conn := Conn(inst, [], [], true, false)])
    }

    function Retire(c: ConnId): (r: NetView)
      requires Valid() && c in conns
      ensures r.Valid() && SameSeats(r)
    {
      this.(conns := conns[c := Superseded(conns[c])])
    }

    /** A new session supersedes any older one of its node; the view is published, then caught up on. */
    function Register(node: NodeId, conn: ConnId, inst: nat, have: nat, content: Snapshot, nowMs: nat,
                      grace: bool): (r: NetView)
      requires Valid() && conn !in conns
      ensures r.Valid()
    {
      var told := Seated(node, conn, inst).Publish(content, nowMs);
      var caught := if grace then told else told.CatchUp(node, have);
      if node in sessions then caught.Retire(sessions[node].conn) else caught
    }

    /** If the report moved what the view depends on, a publish precedes the comparison. */
    function OnHeartbeat(node: NodeId, r: Report, publish: Option<(Snapshot, nat)>, grace: bool): (after: NetView)
      requires Valid()
      ensures after.Valid() && SameSeats(after)
    {
      var told := if publish.Some? then Publish(publish.value.0, publish.value.1) else this;
      if grace then told
      else if r.gen != told.dir.gen then told.CatchUp(node, r.gen)
      else if r.content != Digest(told.dir.published) then told.CatchUp(node, 0)
      else told
    }

    /** The end of a connection's session loop: the session goes unless it was superseded. */
    function Teardown(node: NodeId, conn: ConnId, content: Snapshot, nowMs: nat): (r: NetView)
      requires Valid()
      ensures r.Valid()
    {
      if node in sessions && sessions[node].conn == conn
      then this.(sessions := sessions - {node}).Publish(content, nowMs)
      else this
    }
  }

  lemma {:induction false} SendAllKeepsOwner(c: Conn, ps: seq<Push>)
    ensures SendAll(c, ps).0.inst == c.inst
    decreases |ps|
  {
    if ps != [] && c.Room() {
      SendAllKeepsOwner(Offer(c, ps[0]), ps[1..]);
    }
  }

  /** What is queued is a prefix of what was offered, and all of it exactly when the send succeeded. */
  lemma {:induction false} SendAllQueues(c: Conn, ps: seq<Push>) returns (k: nat)
    ensures k <= |ps| && (SendAll(c, ps).1 <==> k == |ps|)
    ensures SendAll(c, ps).0.Queue() == c.Queue() + ps[..k]
    ensures SendAll(c, ps).0.inst == c.inst && SendAll(c, ps).0.wire == c.wire
    ensures SendAll(c, ps).0.closing <==> c.closing || k < |ps|
    decreases |ps|
  {
    if ps == [] || !c.Room() {
      k := 0;
      assert c.Queue() + ps[..0] == c.Queue();
    } else {
      var sent := Offer(c, ps[0]);
      k := SendAllQueues(sent, ps[1..]);
      assert sent.Queue() == c.Queue() + [ps[0]];
      assert [ps[0]] + ps[1..][..k] == ps[..k + 1];
      k := k + 1;
    }
  }

  /** A whole catch-up fits the queue. */
  predicate Fits(c: Conn, ps: seq<Push>) {
    ps == [] || (c.up && |c.chan| + |ps| <= PUSH_QUEUE)
  }

  lemma {:induction false} SentIffFits(c: Conn, ps: seq<Push>)
    ensures SendAll(c, ps).1 <==> Fits(c, ps)
    decreases |ps|
  {
    if ps != [] && c.Room() {
      SentIffFits(Offer(c, ps[0]), ps[1..]);
    }
  }

  /** A catch-up leaves its session synced with all of it queued, exactly if it fits, and closed otherwise. */
  lemma CatchUpSyncsIff(net: NetView, node: NodeId, have: nat)
    requires net.Valid() && node in net.sessions
    ensures var after, c, ps := net.CatchUp(node, have), net.sessions[node].conn, net.Pushes(have);
            && (after.sessions[node].synced <==> Fits(net.conns[c], ps))
            && (if after.sessions[node].synced then after.conns[c].Queue() == net.conns[c].Queue() + ps
                else after.conns[c].closing)
            && (forall n <- net.sessions :: n != node ==> after.sessions[n] == net.sessions[n])
            && (forall x <- net.conns :: x != c ==> after.conns[x] == net.conns[x])
  {
    var conn, ps := net.conns[net.sessions[node].conn], net.Pushes(have);
    SentIffFits(conn, ps);
    var k := SendAllQueues(conn, ps);
    assert k == |ps| ==> ps[..k] == ps;
  }

  /** One session's turn in a broadcast. */
  method TellOne(n: NodeId, net: NetView, d: Delta, ghost was: NetView, ghost done: set<NodeId>) returns (told: NetView)
    requires was.Valid() && done <= was.sessions.Keys && n in was.sessions && n !in done
    requires net == was.BroadcastTo(done, d)
    ensures told == was.BroadcastTo(done + {n}, d)
  {
    was.OneMoreTold(done, n, d);
    var s := net.sessions[n];
    if s.synced {
      told := net.(sessions := net.sessions[n := s.(synced := net.conns[s.conn].Room())],
                   conns := net.conns[s.conn := Offer(net.conns[s.conn], PushDelta(d))]);
    } else {
      told := net;
    }
  }

  /** The broadcast loop over the session table. */
  method TellAll(net: NetView, d: Delta) returns (told: NetView)
    requires net.Valid()
    ensures told == net.Broadcast(d)
  {
    told := net;
    var todo := net.sessions.Keys;
    net.NoneTold(d);
    assert {} == net.sessions.Keys - todo;
    while todo != {}
      invariant todo <= net.sessions.Keys && told == net.BroadcastTo(net.sessions.Keys - todo, d)
      decreases |todo|
    {
      var n := Pick(todo);
      told := TellOne(n, told, d, net, net.sessions.Keys - todo);
      assert net.sessions.Keys - (todo - {n}) == net.sessions.Keys - todo + {n};
      todo := todo - {n};
    }
    assert net.sessions.Keys - todo == net.sessions.Keys;
  }

  /** One network's state in a running coordinator; `saved` is the mark on disk. */
  class NetState {
    const directory: Directory
    var mark: nat
    var saved: nat
    var sessions: map<NodeId, Session>
    var conns: map<ConnId, Conn>

    function State(): NetView
      reads this, directory
    {
      NetView(directory.State(), mark, sessions, conns)
    }

    ghost predicate Valid()
      reads this, directory
    {
      State().Valid()
    }

    constructor (savedMark: nat, nowMs: nat)
      ensures fresh(directory)
      ensures State() == NetView(FreshDir(InitialGen(savedMark, nowMs)), savedMark, map[], map[])
      ensures saved == savedMark && Valid()
    {
      directory := new Directory(InitialGen(savedMark, nowMs));
      mark, saved, sessions, conns := savedMark, savedMark, map[], map[];
    }

    /** Offer one push after another; the caller learns whether all of them fitted. */
    method Send(conn: ConnId, ps: seq<Push>) returns (ok: bool)
      requires conn in conns
      modifies `conns
      ensures var (c, sent) := SendAll(old(conns[conn]), ps);
              conns == old(conns)[conn := c] && ok == sent
    {
      var c := conns[conn];
      var i := 0;
      while i < |ps|
        invariant 0 <= i <= |ps| && conns == old(conns)
        invariant SendAll(old(conns[conn]), ps) == SendAll(c, ps[i..])
      {
        assert ps[i..][1..] == ps[i + 1..];
        if !c.Room() {
          conns := conns[conn := c.(closing := true)];
          return false;
        }
        c := Offer(c, ps[i]);
        i := i + 1;
      }
      assert ps[i..] == [];
      conns := conns[conn := c];
      ok := true;
    }

    method CatchUp(node: NodeId, have: nat)
      requires Valid()
      modifies `sessions, `conns
      ensures State() == old(State()).CatchUp(node, have)
    {
      if node !in sessions {
        return;
      }
      var s := sessions[node];
      var chain := directory.Since(have);
      var ps := if chain.Some? then DeltaPushes(chain.value) else [PushSnapshot(directory.published)];
      var ok := Send(s.conn, ps);
      sessions := sessions[node := s.(synced := ok)];
    }

    /** Each synced session is offered the delta; one that cannot take it loses its mark and its connection. */
    method Broadcast(d: Delta)
      requires Valid()
      modifies `sessions, `conns
      ensures State() == old(State()).Broadcast(d)
    {
      var told := TellAll(State(), d);
      sessions, conns := told.sessions, told.conns;
    }

    /** Recompute; a new generation is saved if the mark was passed, then broadcast. */
    method Publish(content: Snapshot, nowMs: nat)
      requires Valid() && saved == mark
      modifies this, directory
      ensures State() == old(State()).Publish(content, nowMs) && saved == mark
    {
      var d := directory.Recompute(content, nowMs);
      if d.None? {
        return;
      }
      if directory.gen >= mark {
        mark := directory.gen + GEN_PERSIST_STEP;
        saved := mark;
      }
      Broadcast(d.value);
    }

    method Register(node: NodeId, conn: ConnId, inst: nat, have: nat, content: Snapshot, nowMs: nat, grace: bool)
      requires Valid() && saved == mark && conn !in conns
      modifies this, directory
      ensures State() == old(State()).Register(node, conn, inst, have, content, nowMs, grace) && saved == mark
    {
      var superseded := if node in sessions then Some(sessions[node].conn) else None;
      sessions := sessions[node := Session(conn, false)];
      conns := conns[conn := Conn(inst, [], [], true, false)];
      Publish(content, nowMs);
      if !grace {
        CatchUp(node, have);
      }
      if superseded.Some? {
        conns := conns[superseded.value := Superseded(conns[superseded.value])];
      }
    }

    method OnHeartbeat(node: NodeId, r: Report, publish: Option<(Snapshot, nat)>, grace: bool)
      requires Valid() && saved == mark
      modifies this, directory
      ensures State() == old(State()).OnHeartbeat(node, r, publish, grace) && saved == mark
    {
      if publish.Some? {
        Publish(publish.value.0, publish.value.1);
      }
      if grace {
        return;
      }
      if r.gen != directory.gen {
        CatchUp(node, r.gen);
      } else if r.content != Digest(directory.published) {
        CatchUp(node, 0);
      }
    }

    method Teardown(node: NodeId, conn: ConnId, content: Snapshot, nowMs: nat)
      requires Valid() && saved == mark
      modifies this, directory
      ensures State() == old(State()).Teardown(node, conn, content, nowMs) && saved == mark
    {
      if node in sessions && sessions[node].conn == conn {
        sessions := sessions - {node};
        Publish(content, nowMs);
      }
    }
  }
}

/**
 The restart grace window: while it stands the coordinator sends nobody anything, and as long as it
 does not open again before the next restart, no report folded in does harm.
 */
module Grace {
  import opened Base
  import opened Snapshots
  import opened Directories
  import opened Control
  import opened Replication
  import opened Convergence

  /** The operations that ask whether the window still stands. */
  predicate Tests(e: Event) {
    e.Connect? || e.Beat? || e.Ask?
  }

  /** `over`: an operation of this coordinator process has already found the window past. */
  function Over(over: bool, e: Event): bool {
    if e.Crash? then false else over || (Tests(e) && !e.grace)
  }

  ghost predicate OnceFollows(w: World, over: bool, v: World, over': bool) {
    && w.net.Valid()
    && exists e: Event ::
         Enabled(w, e) && (Tests(e) && e.grace ==> !over) && v == Step(w, e) && over' == Over(over, e)
  }

  /** A run in which no process's grace window opens again once it is past. */
  ghost predicate IsOnceRun(run: seq<World>, over: seq<bool>) {
    && |run| == |over| > 0 && (exists nowMs: nat :: run[0] == Init(nowMs)) && !over[0]
    && forall k :: 0 < k < |run| ==> OnceFollows(run[k - 1], over[k - 1], run[k], over[k])
  }

  // ---------- what the window keeps ----------

  ghost predicate SeatOf(w: World, n: NodeId) {
    n in w.net.sessions ==>
      var c := w.net.sessions[n].conn;
      c in w.net.conns && w.net.conns[c].inst in w.insts && w.insts[w.net.conns[c].inst].node == n
  }

  /** Every session's connection is one of an instance of its node. */
  ghost predicate Seats(w: World) {
    forall n :: SeatOf(w, n)
  }

  ghost predicate Mute(q: seq<Push>) {
    forall p <- q :: p == Raw || p == Close
  }

  ghost predicate ConnQuiet(w: World, c: ConnId, n: NodeId) {
    c in w.net.conns && w.net.conns[c].inst in w.insts && w.insts[w.net.conns[c].inst].node == n ==>
      Mute(w.net.conns[c].Queue())
  }

  ghost predicate InstQuiet(w: World, i: nat, n: NodeId)
    requires |w.hist| >= 1
  {
    i in w.insts && w.insts[i].node == n ==> w.insts[i].copy.gen < w.hist[0].gen
  }

  /** This coordinator process has sent the node nothing: all its instances hold, and ever reported, is older. */
  ghost predicate Quiet(w: World, n: NodeId)
    requires |w.hist| >= 1
  {
    (forall i :: InstQuiet(w, i, n)) && (forall c :: ConnQuiet(w, c, n))
  }

  ghost predicate Cover(w: World, n: NodeId)
    requires |w.hist| >= 1
  {
    Quiet(w, n) || (n in w.net.sessions && Live(w, w.net.sessions[n].conn) ==> Synced(w, n))
  }

  /** Every open session is synced, or its node was sent nothing yet. */
  ghost predicate Covered(w: World)
    requires |w.hist| >= 1
  {
    forall n :: Cover(w, n)
  }

  ghost predicate Hush(w: World, n: NodeId)
    requires |w.hist| >= 1
  {
    Quiet(w, n) && !Synced(w, n)
  }

  /** Nobody was sent anything. */
  ghost predicate Hushed(w: World)
    requires |w.hist| >= 1
  {
    forall n :: Hush(w, n)
  }

  ghost predicate Window(w: World, over: bool)
    requires |w.hist| >= 1
  {
    Seats(w) && Covered(w) && (!over ==> Hushed(w))
  }

  // ---------- the guard ----------

  /** The ring reaches back to nothing older than this process. */
  lemma ChainIsRecent(w: World, have: nat)
    requires HistOk(w)
    ensures DeltasSince(w.net.dir, have).Some? ==> w.hist[0].gen <= have
  {
    if DeltasSince(w.net.dir, have).Some? {
      var b := PushesOnward(w, have);
      assert w.hist[0].gen <= w.hist[b].gen;
    }
  }

  lemma CoveredIsHarmless(w: World, i: nat, r: Report)
    requires Truth(w) && Flow(w) && i in w.insts && r in w.insts[i].said && Cover(w, w.insts[i].node)
    ensures Harmless(w, w.insts[i].node, r.gen)
  {
    var node := w.insts[i].node;
    assert InstOk(w.pubs, w.insts[i]);
    if Quiet(w, node) {
      assert InstQuiet(w, i, node);
      ChainIsRecent(w, r.gen);
    } else {
      assert Current(w, node);
      PubsAreNotNewer(w);
      assert ReportOk(w.pubs, r);
    }
  }

  lemma CoveredIsGuarded(w: World, e: Event)
    requires Truth(w) && Started(w) && Flow(w) && Seats(w) && Covered(w) && Enabled(w, e)
    ensures Guarded(w, e)
  {
    if e.Beat? {
      ToldKeeps(w, e.publish);
      ToldKeepsFlow(w, e.publish);
      ToldCover(w, e.publish, w.insts[e.i].node);
      CoveredIsHarmless(Told(w, e.publish), e.i, e.r);
    } else if e.Ask? {
      assert Cover(w, w.insts[e.i].node);
      CoveredIsHarmless(w, e.i, e.r);
    }
  }

  // ---------- publishing ----------

  lemma PublishedSeats(w: World, content: Snapshot, nowMs: nat)
    requires Truth(w) && Seats(w)
    ensures Seats(Published(w, content, nowMs)) && |Published(w, content, nowMs).hist| >= 1
  {
    var v := Published(w, content, nowMs);
    PublishedExtends(w, content, nowMs);
    forall n
      ensures SeatOf(v, n)
    {
      assert SeatOf(w, n);
    }
  }

  /** Only synced sessions are told of a new view. */
  lemma PublishedHush(w: World, content: Snapshot, nowMs: nat, n: NodeId)
    requires Truth(w) && Seats(w) && Hush(w, n)
    ensures |Published(w, content, nowMs).hist| >= 1 && Hush(Published(w, content, nowMs), n)
  {
    var v := Published(w, content, nowMs);
    PublishedExtends(w, content, nowMs);
    forall i
      ensures InstQuiet(v, i, n)
    {
      assert InstQuiet(w, i, n);
    }
    forall c
      ensures ConnQuiet(v, c, n)
    {
      assert ConnQuiet(w, c, n);
      if c in v.net.conns && v.net.conns[c] != w.net.conns[c] {
        var k := PublishedOffers(w, content, nowMs, c);
        assert SeatOf(w, k);
      }
    }
  }

  /** A session without room for the delta is closed. */
  lemma BroadcastSync(net: NetView, d: Delta, n: NodeId)
    requires net.Valid() && n in net.sessions
    ensures var after, c := net.Broadcast(d), net.sessions[n].conn;
            && (net.conns[c].closing ==> after.conns[c].closing)
            && (net.sessions[n].synced ==> after.sessions[n].synced || after.conns[c].closing)
  {
    assert n in net.sessions.Keys;
    assert net.sessions[n].synced ==> net.Followed(net.sessions[n].conn, net.sessions.Keys);
  }

  lemma PublishedSync(w: World, content: Snapshot, nowMs: nat, n: NodeId)
    requires Truth(w) && n in w.net.sessions
    ensures var after, c := w.net.Publish(content, nowMs), w.net.sessions[n].conn;
            && (w.net.conns[c].closing ==> after.conns[c].closing)
            && (w.net.sessions[n].synced ==> after.sessions[n].synced || after.conns[c].closing)
  {
    var (after, d) := Recomputed(w.net.dir, content, nowMs);
    if d.Some? {
      BroadcastSync(w.net.(dir := after, mark := NoteGen(w.net.mark, after.gen)), d.value, n);
    }
  }

  lemma PublishedCover(w: World, content: Snapshot, nowMs: nat, n: NodeId)
    requires Truth(w) && Seats(w) && Cover(w, n)
    ensures |Published(w, content, nowMs).hist| >= 1 && Cover(Published(w, content, nowMs), n)
  {
    PublishedSeats(w, content, nowMs);
    PublishedExtends(w, content, nowMs);
    if n in w.net.sessions {
      PublishedSync(w, content, nowMs, n);
    }
    if Hush(w, n) {
      PublishedHush(w, content, nowMs, n);
    }
  }

  lemma ToldCover(w: World, publish: Option<(Snapshot, nat)>, n: NodeId)
    requires Truth(w) && Seats(w) && Cover(w, n)
    ensures |Told(w, publish).hist| >= 1 && Cover(Told(w, publish), n) && Seats(Told(w, publish))
  {
    if publish.Some? {
      PublishedCover(w, publish.value.0, publish.value.1, n);
      PublishedSeats(w, publish.value.0, publish.value.1);
    }
  }

  lemma PublishedWindow(w: World, content: Snapshot, nowMs: nat, over: bool)
    requires Truth(w) && Window(w, over)
    ensures |Published(w, content, nowMs).hist| >= 1 && Window(Published(w, content, nowMs), over)
  {
    var v := Published(w, content, nowMs);
    PublishedSeats(w, content, nowMs);
    forall n
      ensures Cover(v, n) && (!over ==> Hush(v, n))
    {
      assert Cover(w, n);
      PublishedCover(w, content, nowMs, n);
      if !over {
        assert Hush(w, n);
        PublishedHush(w, content, nowMs, n);
      }
    }
  }

  // ---------- catching up ----------

  /** A caught-up session is synced, or its connection is closed; no other session is touched. */
  lemma CaughtUpCover(w: World, node: NodeId, have: nat, n: NodeId)
    requires Truth(w) && Seats(w) && (n == node || Cover(w, n))
    ensures Cover(CaughtUp(w, node, have), n) && SeatOf(CaughtUp(w, node, have), n)
  {
    var v := CaughtUp(w, node, have);
    assert SeatOf(w, n) && SeatOf(w, node);
    if node in w.net.sessions {
      var c := w.net.sessions[node].conn;
      var k := SendAllQueues(w.net.conns[c], w.net.Pushes(have));
      if n != node && Quiet(w, n) {
        OthersQuiet(w, v, c, n);
      }
    }
  }

  /** A change to a connection of another node. */
  lemma OthersQuiet(w: World, v: World, c: ConnId, n: NodeId)
    requires |w.hist| >= 1 && v.hist == w.hist && v.insts == w.insts && Quiet(w, n)
    requires v.net.conns.Keys == w.net.conns.Keys && c in w.net.conns && v.net.conns[c].inst == w.net.conns[c].inst
    requires forall x <- w.net.conns :: x != c ==> v.net.conns[x] == w.net.conns[x]
    requires w.net.conns[c].inst in w.insts && (w.insts[w.net.conns[c].inst].node == n ==> Mute(v.net.conns[c].Queue()))
    ensures Quiet(v, n)
  {
    forall i
      ensures InstQuiet(v, i, n)
    {
      assert InstQuiet(w, i, n);
    }
    forall x
      ensures ConnQuiet(v, x, n)
    {
      assert ConnQuiet(w, x, n);
    }
  }

  lemma CaughtUpWindow(w: World, node: NodeId, have: nat)
    requires Truth(w) && Seats(w) && (forall n :: n == node || Cover(w, n))
    ensures Window(CaughtUp(w, node, have), true)
  {
    forall n
      ensures Cover(CaughtUp(w, node, have), n) && SeatOf(CaughtUp(w, node, have), n)
    {
      CaughtUpCover(w, node, have, n);
    }
  }

  // ---------- one connection, one instance ----------

  /** A connection that carries no more than it did, apart from calls and a farewell. */
  ghost predicate Tamer(was: Conn, conn: Conn) {
    conn.inst == was.inst && (was.closing ==> conn.closing) && (Mute(was.Queue()) ==> Mute(conn.Queue()))
  }

  lemma SetConnWindow(w: World, c: ConnId, conn: Conn, over: bool)
    requires Truth(w) && Window(w, over) && c in w.net.conns && Tamer(w.net.conns[c], conn)
    ensures Window(SetConn(w, c, conn), over)
  {
    var v := SetConn(w, c, conn);
    assert ConnOk(w, w.net.conns[c]);
    forall n
      ensures SeatOf(v, n) && Cover(v, n) && (!over ==> Hush(v, n))
    {
      assert SeatOf(w, n) && Cover(w, n);
      assert !over ==> Hush(w, n);
      if Quiet(w, n) {
        assert ConnQuiet(w, c, n);
        OthersQuiet(w, v, c, n);
      }
    }
  }

  /** An instance that stays of its node and, if its node was sent nothing, holds what it held. */
  ghost predicate SameAge(w: World, i: nat, m: Inst)
    requires |w.hist| >= 1
  {
    && (i in w.insts ==> m.node == w.insts[i].node && (m.conn == w.insts[i].conn || m.conn.None?))
    && (Quiet(w, m.node) ==> m.copy.gen < w.hist[0].gen)
    && (i !in w.insts ==> m.conn.None?)
  }

  lemma SetInstQuiet(w: World, i: nat, m: Inst, n: NodeId)
    requires Truth(w) && SameAge(w, i, m) && Quiet(w, n)
    ensures Quiet(SetInst(w, i, m), n)
  {
    var v := SetInst(w, i, m);
    forall k
      ensures InstQuiet(v, k, n)
    {
      assert InstQuiet(w, k, n);
    }
    forall c
      ensures ConnQuiet(v, c, n)
    {
      assert ConnQuiet(w, c, n);
      if c in w.net.conns { assert ConnOk(w, w.net.conns[c]); }
    }
  }

  lemma SetInstWindow(w: World, i: nat, m: Inst, over: bool)
    requires Truth(w) && Window(w, over) && SameAge(w, i, m)
    ensures Window(SetInst(w, i, m), over)
  {
    var v := SetInst(w, i, m);
    forall n
      ensures SeatOf(v, n) && Cover(v, n) && (!over ==> Hush(v, n))
    {
      assert SeatOf(w, n) && Cover(w, n);
      assert !over ==> Hush(w, n);
      if Quiet(w, n) { SetInstQuiet(w, i, m, n); }
    }
  }

  lemma QueueTail(conn: Conn)
    requires conn.wire != []
    ensures Tamer(conn, conn.(wire := conn.wire[1..])) && conn.wire[0] in conn.Queue()
  {
    var rest := conn.(wire := conn.wire[1..]);
    assert conn.Queue() == [conn.wire[0]] + rest.Queue();
    assert forall p <- rest.Queue() :: p in conn.Queue();
  }

  /** Nothing but calls and farewells reaches a node that was sent nothing. */
  lemma DeliverWindow(w: World, c: ConnId, over: bool)
    requires Truth(w) && Window(w, over) && Enabled(w, Deliver(c))
    ensures Window(Step(w, Deliver(c)), over)
  {
    var conn := w.net.conns[c];
    var m, p, rest := w.insts[conn.inst], conn.wire[0], conn.(wire := conn.wire[1..]);
    assert ConnOk(w, conn);
    QueueTail(conn);
    if Quiet(w, m.node) {
      assert ConnQuiet(w, c, m.node) && InstQuiet(w, conn.inst, m.node);
    }
    SetInstWindow(w, conn.inst, Read(m, p), over);
    ReadKeeps(w, m, p);
    SetInstKeeps(w, conn.inst, Read(m, p));
    SetConnWindow(SetInst(w, conn.inst, Read(m, p)), c, rest, over);
  }

  lemma OfferIsTame(conn: Conn, p: Push)
    requires p == Raw || p == Close
    ensures Tamer(conn, Offer(conn, p)) && Tamer(conn, Superseded(conn))
  {
    assert Offer(conn, p).Queue() == if conn.Room() then conn.Queue() + [p] else conn.Queue();
    assert Superseded(conn).Queue() == if conn.Room() then conn.Queue() + [Close] else conn.Queue();
  }

  lemma QueueWindow(w: World, e: Event, over: bool)
    requires Truth(w) && Window(w, over) && Enabled(w, e) && (e.SendRaw? || e.Write? || e.WriterGone?)
    ensures Window(Step(w, e), over)
  {
    var conn := w.net.conns[e.c];
    if e.SendRaw? {
      OfferIsTame(conn, Raw);
      SetConnWindow(w, e.c, Offer(conn, Raw), over);
    } else if e.Write? {
      var sent := conn.(wire := conn.wire + [conn.chan[0]], chan := conn.chan[1..]);
      assert sent.Queue() == conn.Queue();
      SetConnWindow(w, e.c, sent, over);
    } else {
      SetConnWindow(w, e.c, conn.(up := false), over);
    }
  }

  // ---------- connecting, leaving, restarting ----------

  /** A new session on an empty connection: nobody was sent anything by that. */
  lemma SeatedQuiet(w: World, i: nat, n: NodeId)
    requires Truth(w) && i in w.insts && w.nextConn !in w.net.conns && Quiet(w, n)
    ensures Quiet(SeatedWorld(w, i), n)
  {
    var v := SeatedWorld(w, i);
    assert v.net.conns[w.nextConn].Queue() == [];
    forall k
      ensures InstQuiet(v, k, n)
    {
      assert InstQuiet(w, k, n);
    }
    forall c
      ensures ConnQuiet(v, c, n)
    {
      assert ConnQuiet(w, c, n);
    }
  }

  lemma SeatedCover(w: World, i: nat, n: NodeId)
    requires Truth(w) && i in w.insts && w.insts[i].conn.None? && w.nextConn !in w.net.conns
    requires SeatOf(w, n) && Cover(w, n)
    ensures SeatOf(SeatedWorld(w, i), n) && (n == w.insts[i].node || Cover(SeatedWorld(w, i), n))
    ensures Hush(w, n) ==> Hush(SeatedWorld(w, i), n) && Cover(SeatedWorld(w, i), n)
  {
    if Quiet(w, n) { SeatedQuiet(w, i, n); }
  }

  /** The new session seated and the view published; the node in hand may still be owed its catch-up. */
  lemma SeatedToldCover(w: World, i: nat, content: Snapshot, nowMs: nat, over: bool)
    requires Truth(w) && Window(w, over) && Enabled(w, Connect(i, content, nowMs, over))
    ensures var told := Published(SeatedWorld(w, i), content, nowMs);
            && Truth(told) && Started(told) && Seats(told)
            && (forall n :: n == w.insts[i].node || Cover(told, n)) && (!over ==> Hushed(told))
  {
    var seated := SeatedWorld(w, i);
    SeatedKeeps(w, i);
    forall n
      ensures SeatOf(seated, n)
    {
      assert SeatOf(w, n) && Cover(w, n);
      SeatedCover(w, i, n);
    }
    var told := Published(seated, content, nowMs);
    PublishedKeeps(seated, content, nowMs);
    PublishedSomething(seated, content, nowMs);
    PublishedSeats(seated, content, nowMs);
    forall n
      ensures n == w.insts[i].node || Cover(told, n)
      ensures !over ==> Hush(told, n)
    {
      assert SeatOf(w, n) && Cover(w, n);
      assert !over ==> Hush(w, n);
      SeatedCover(w, i, n);
      if Cover(seated, n) { PublishedCover(seated, content, nowMs, n); }
      if !over { PublishedHush(seated, content, nowMs, n); }
    }
  }

  lemma ConnectWindow(w: World, i: nat, content: Snapshot, nowMs: nat, grace: bool, over: bool)
    requires Truth(w) && Window(w, over) && Enabled(w, Connect(i, content, nowMs, grace)) && (grace ==> !over)
    ensures var v := Step(w, Connect(i, content, nowMs, grace)); |v.hist| >= 1 && Window(v, over || !grace)
  {
    ConnectIs(w, i, content, nowMs, grace);
    SeatedToldCover(w, i, content, nowMs, over);
    var node, had := w.insts[i].node, w.net.sessions;
    var told := Published(SeatedWorld(w, i), content, nowMs);
    var caught := if grace then told else CaughtUp(told, node, w.insts[i].copy.gen);
    if grace {
      HushedIsWindow(told);
    } else {
      CaughtUpWindow(told, node, w.insts[i].copy.gen);
      CaughtUpKeeps(told, node, w.insts[i].copy.gen);
    }
    if node in had {
      var c := had[node].conn;
      OfferIsTame(caught.net.conns[c], Close);
      SetConnWindow(caught, c, Superseded(caught.net.conns[c]), over || !grace);
    }
  }

  lemma HushedIsWindow(w: World)
    requires |w.hist| >= 1 && Seats(w) && Hushed(w)
    ensures Window(w, false) && Window(w, true)
  {
    forall n
      ensures Cover(w, n)
    {
      assert Hush(w, n);
    }
  }

  lemma ToldWindow(w: World, publish: Option<(Snapshot, nat)>, over: bool)
    requires Truth(w) && Window(w, over)
    ensures |Told(w, publish).hist| >= 1 && Window(Told(w, publish), over)
  {
    if publish.Some? {
      PublishedWindow(w, publish.value.0, publish.value.1, over);
    }
  }

  /** Whichever way a heartbeat goes on after its publish. */
  lemma CaughtUpEither(w: World, node: NodeId, have: nat, over: bool)
    requires Truth(w) && Window(w, over)
    ensures Window(w, true) && Window(CaughtUp(w, node, have), true) && Window(CaughtUp(w, node, 0), true)
  {
    assert forall n :: Cover(w, n);
    CaughtUpWindow(w, node, have);
    CaughtUpWindow(w, node, 0);
  }

  lemma BeatWindow(w: World, i: nat, r: Report, publish: Option<(Snapshot, nat)>, grace: bool, over: bool)
    requires Truth(w) && Started(w) && Window(w, over) && Enabled(w, Beat(i, r, publish, grace)) && (grace ==> !over)
    ensures var v := Step(w, Beat(i, r, publish, grace)); |v.hist| >= 1 && Window(v, over || !grace)
  {
    BeatIs(w, i, r, publish, grace);
    var told := Told(w, publish);
    assert Truth(told) && Window(told, over) by {
      ToldKeeps(w, publish);
      ToldWindow(w, publish, over);
    }
    if !grace {
      CaughtUpEither(told, w.insts[i].node, r.gen, over);
    }
  }

  lemma TeardownWindow(w: World, c: ConnId, content: Snapshot, nowMs: nat, over: bool)
    requires Truth(w) && Started(w) && Window(w, over) && Enabled(w, Teardown(c, content, nowMs))
    ensures |Step(w, Teardown(c, content, nowMs)).hist| >= 1 && Window(Step(w, Teardown(c, content, nowMs)), over)
  {
    var node := w.insts[w.net.conns[c].inst].node;
    TeardownIs(w, c, content, nowMs);
    if node in w.net.sessions && w.net.sessions[node].conn == c {
      var u := Unseated(w, node);
      UnseatedKeeps(w, node);
      forall n
        ensures SeatOf(u, n) && Cover(u, n) && (!over ==> Hush(u, n))
      {
        assert SeatOf(w, n) && Cover(w, n);
        assert !over ==> Hush(w, n);
        if Quiet(w, n) { UnseatedQuiet(w, node, n); }
      }
      PublishedWindow(u, content, nowMs, over);
    }
  }

  lemma UnseatedQuiet(w: World, node: NodeId, n: NodeId)
    requires |w.hist| >= 1 && Quiet(w, n)
    ensures Quiet(Unseated(w, node), n)
  {
    var v := Unseated(w, node);
    forall i
      ensures InstQuiet(v, i, n)
    {
      assert InstQuiet(w, i, n);
    }
    forall c
      ensures ConnQuiet(v, c, n)
    {
      assert ConnQuiet(w, c, n);
    }
  }

  /** After a restart nobody holds anything this process published. */
  lemma CrashWindow(w: World, nowMs: nat)
    requires Truth(w)
    ensures |Step(w, Crash(nowMs)).hist| >= 1 && Window(Step(w, Crash(nowMs)), false)
  {
    var v := Step(w, Crash(nowMs));
    forall n
      ensures Hush(v, n) && SeatOf(v, n)
    {
      forall i
        ensures InstQuiet(v, i, n)
      {
        if i in w.insts { assert InstOk(w.pubs, w.insts[i]); }
      }
      assert forall c :: ConnQuiet(v, c, n);
    }
    HushedIsWindow(v);
  }

  lemma BootWindow(w: World, i: nat, node: NodeId, over: bool)
    requires Truth(w) && Window(w, over) && Enabled(w, Boot(i, node))
    ensures Window(Step(w, Boot(i, node)), over)
  {
    SetInstWindow(w, i, Inst(node, EMPTY, None, {}), over);
  }

  lemma SpokenWindow(w: World, i: nat, m: Inst, over: bool)
    requires Truth(w) && Window(w, over) && i in w.insts
    requires m.node == w.insts[i].node && m.copy == w.insts[i].copy && (m.conn == w.insts[i].conn || m.conn.None?)
    ensures Window(SetInst(w, i, m), over)
  {
    assert InstQuiet(w, i, m.node) || !Quiet(w, m.node);
    SetInstWindow(w, i, m, over);
  }

  lemma InstWindow(w: World, e: Event, over: bool)
    requires Truth(w) && Window(w, over) && Enabled(w, e) && (e.Say? || e.Hangup?)
    ensures |Step(w, e).hist| >= 1 && Window(Step(w, e), over)
  {
    if e.Say? {
      SpokenWindow(w, e.i, w.insts[e.i].(said := w.insts[e.i].said + {ReportOf(w.insts[e.i].copy)}), over);
    } else {
      SpokenWindow(w, e.i, Disconnected(w.insts[e.i]), over);
    }
  }

  lemma AskWindow(w: World, i: nat, r: Report, grace: bool, over: bool)
    requires Truth(w) && Window(w, over) && Enabled(w, Ask(i, r, grace)) && (grace ==> !over)
    ensures var v := Step(w, Ask(i, r, grace)); |v.hist| >= 1 && Window(v, over || !grace)
  {
    if !grace {
      CaughtUpEither(w, w.insts[i].node, r.gen, over);
    }
  }

  lemma PublishWindow(w: World, content: Snapshot, nowMs: nat, over: bool)
    requires Truth(w) && Window(w, over) && Enabled(w, Publish(content, nowMs))
    ensures var v := Step(w, Publish(content, nowMs)); |v.hist| >= 1 && Window(v, over)
  {
    PublishedWindow(w, content, nowMs, over);
  }

  lemma AskingWindow(w: World, e: Event, over: bool)
    requires Truth(w) && Started(w) && Window(w, over) && Enabled(w, e) && Tests(e) && (e.grace ==> !over)
    ensures |Step(w, e).hist| >= 1 && Window(Step(w, e), Over(over, e))
  {
    match e
    case Connect(i, content, nowMs, grace) => ConnectWindow(w, i, content, nowMs, grace, over);
    case Beat(i, r, publish, grace) => BeatWindow(w, i, r, publish, grace, over);
    case Ask(i, r, grace) => AskWindow(w, i, r, grace, over);
  }

  lemma StepKeepsWindow(w: World, e: Event, over: bool)
    requires Truth(w) && Started(w) && Window(w, over) && Enabled(w, e) && (Tests(e) && e.grace ==> !over)
    ensures |Step(w, e).hist| >= 1 && Window(Step(w, e), Over(over, e))
  {
    match e
    case Boot(i, node) => BootWindow(w, i, node, over);
    case Publish(content, nowMs) => PublishWindow(w, content, nowMs, over);
    case Say(_) => InstWindow(w, e, over);
    case Deliver(c) => DeliverWindow(w, c, over);
    case Hangup(_) => InstWindow(w, e, over);
    case Teardown(c, content, nowMs) => TeardownWindow(w, c, content, nowMs, over);
    case Crash(nowMs) => CrashWindow(w, nowMs);
    case Connect(_, _, _, _) => AskingWindow(w, e, over);
    case Beat(_, _, _, _) => AskingWindow(w, e, over);
    case Ask(_, _, _) => AskingWindow(w, e, over);
    case _ => QueueWindow(w, e, over);
  }

  // ---------- whole runs ----------

  lemma InitWindow(nowMs: nat)
    ensures Window(Init(nowMs), false)
  {
    var w := Init(nowMs);
    forall n
      ensures Hush(w, n) && SeatOf(w, n)
    {
      assert forall i :: InstQuiet(w, i, n);
      assert forall c :: ConnQuiet(w, c, n);
    }
    HushedIsWindow(w);
  }

  lemma OnceStep(w: World, over: bool, v: World, over': bool)
    requires Truth(w) && Started(w) && Flow(w) && Window(w, over) && OnceFollows(w, over, v, over')
    ensures GuardedFollows(w, v) && Truth(v) && Started(v) && Flow(v) && Window(v, over')
  {
    var e: Event :| Enabled(w, e) && (Tests(e) && e.grace ==> !over) && v == Step(w, e) && over' == Over(over, e);
    CoveredIsGuarded(w, e);
    StepKeepsTruth(w, e);
    StepKeepsFlow(w, e);
    StepKeepsWindow(w, e, over);
  }

  lemma {:induction false} OnceKeeps(run: seq<World>, over: seq<bool>, k: nat)
    requires IsOnceRun(run, over) && k < |run|
    ensures Truth(run[k]) && Started(run[k]) && Flow(run[k]) && Window(run[k], over[k])
    ensures k > 0 ==> GuardedFollows(run[k - 1], run[k])
  {
    if k == 0 {
      var nowMs: nat :| run[0] == Init(nowMs);
      InitIsTrue(nowMs);
      InitWindow(nowMs);
    } else {
      OnceKeeps(run, over, k - 1);
      OnceStep(run[k - 1], over[k - 1], run[k], over[k]);
    }
  }

  /**
   In every run in which no grace window opens again before the next restart, whatever is replaced,
   reported late, dropped or crashed, no report folded in does harm, and every session converges.
   */
  lemma OneWindowConverges(run: seq<World>, over: seq<bool>)
    requires IsOnceRun(run, over)
    ensures IsGuardedRun(run)
    ensures forall k :: 0 <= k < |run| ==> Converges(run[k])
  {
    forall k | 0 < k < |run|
      ensures GuardedFollows(run[k - 1], run[k])
    {
      OnceKeeps(run, over, k);
    }
    forall k | 0 <= k < |run|
      ensures Converges(run[k])
    {
      SyncedSessionsConverge(run, k);
    }
  }
}

/**
 Push queues converge: what is queued for a session takes its member's copy to the published view
 without a generation gap, however catch-ups overlap and whatever an overflow dropped before.
 */
module Convergence {
  import opened Base
  import opened Snapshots
  import opened Directories
  import opened Control
  import opened Replication

  /** The generation a queue takes a holder of `g` to; none if it meets a gap. */
  function Walk(g: nat, q: seq<Push>): Option<nat>
    decreases |q|
  {
    if q == [] then Some(g) else
    match q[0]
    case PushDelta(d) => if d.gen <= g then Walk(g, q[1..]) else if d.baseGen == g then Walk(d.gen, q[1..]) else None
    case PushSnapshot(s) => Walk(Max(g, s.gen), q[1..])
    case _ => Walk(g, q[1..])
  }

  lemma {:induction false} WalkConcat(g: nat, q: seq<Push>, r: seq<Push>)
    ensures Walk(g, q + r) == match Walk(g, q) case Some(t) => Walk(t, r) case None => None
    decreases |q|
  {
    if q == [] {
      assert q + r == r;
    } else {
      assert (q + r)[1..] == q[1..] + r && (q + r)[0] == q[0];
      match q[0]
      case PushDelta(d) =>
        if d.gen <= g {
          WalkConcat(g, q[1..], r);
        } else if d.baseGen == g {
          WalkConcat(d.gen, q[1..], r);
        }
      case PushSnapshot(s) => WalkConcat(Max(g, s.gen), q[1..], r);
      case _ => WalkConcat(g, q[1..], r);
    }
  }

  /** Where one push takes a holder of `g`. */
  function Move(g: nat, p: Push): Option<nat> {
    if p.PushDelta? then if p.d.gen <= g then Some(g) else if p.d.baseGen == g then Some(p.d.gen) else None
    else if p.PushSnapshot? then Some(Max(g, p.s.gen))
    else Some(g)
  }

  lemma WalkOne(g: nat, p: Push)
    ensures Walk(g, [p]) == Move(g, p)
  {
    assert [p][1..] == [] && [p][0] == p;
  }

  lemma OneReceived(w: World, copy: Snapshot, p: Push)
    requires HistOk(w) && PubsOk(w) && Held(w.pubs, copy) && PushOk(w.hist, p)
    ensures match Walk(copy.gen, [p])
            case Some(g) => Received(copy, p).Ok? && Received(copy, p).value.gen == g &&
              Held(w.pubs, Received(copy, p).value)
            case None => Received(copy, p).Err?
  {
    ReceivedIsHeld(w, copy, p);
    WalkOne(copy.gen, p);
  }

  /** Reading a true queue from a true copy goes exactly where its generations say. */
  lemma {:induction false} DrainFollowsWalk(w: World, copy: Snapshot, q: seq<Push>)
    requires HistOk(w) && PubsOk(w) && Held(w.pubs, copy) && QueueOk(w.hist, q)
    ensures match Walk(copy.gen, q)
            case Some(g) => Drained(copy, q).Ok? && Drained(copy, q).value.gen == g &&
              Held(w.pubs, Drained(copy, q).value)
            case None => Drained(copy, q).Err?
    decreases |q|
  {
    if q != [] {
      OneReceived(w, copy, q[0]);
      WalkConcat(copy.gen, [q[0]], q[1..]);
      assert [q[0]] + q[1..] == q;
      var r := Received(copy, q[0]);
      if r.Ok? {
        DrainFollowsWalk(w, r.value, q[1..]);
      }
    }
  }

  lemma {:induction false} OnwardLength(hist: seq<Snapshot>, b: nat)
    requires b < |hist|
    ensures |Onward(hist, b)| == |hist| - 1 - b
    decreases |hist| - b
  {
    if b + 1 < |hist| {
      OnwardLength(hist, b + 1);
    }
  }

  function Later(k: nat, j: nat): nat {
    if k < j then j else k
  }

  lemma OnwardHead(hist: seq<Snapshot>, b: nat, m: nat)
    requires 0 < m && b + m < |hist|
    ensures m <= |Onward(hist, b)| && m - 1 <= |Onward(hist, b + 1)|
    ensures Onward(hist, b)[..m] == [PushDelta(Diff(hist[b], hist[b + 1]))] + Onward(hist, b + 1)[..m - 1]
  {
    OnwardLength(hist, b);
    OnwardLength(hist, b + 1);
  }

  /** A holder at or past the start of a chain is carried to as far as the chain was sent. */
  lemma {:induction false} WalkOnward(hist: seq<Snapshot>, b: nat, k: nat, m: nat)
    requires Rising(hist) && b <= k < |hist| && b + m < |hist|
    ensures m <= |Onward(hist, b)|
    ensures Walk(hist[k].gen, Onward(hist, b)[..m]) == Some(hist[Later(k, b + m)].gen)
    decreases m
  {
    if m > 0 {
      var p := PushDelta(Diff(hist[b], hist[b + 1]));
      OnwardHead(hist, b, m);
      WalkConcat(hist[k].gen, [p], Onward(hist, b + 1)[..m - 1]);
      WalkOne(hist[k].gen, p);
      assert hist[b].gen < hist[b + 1].gen;
      WalkOnward(hist, b + 1, Later(k, b + 1), m - 1);
    }
  }

  // ---------- where a walk can end ----------

  ghost predicate Placed(w: World, g: nat) {
    g == 0 || g in w.pubs
  }

  lemma {:induction false} WalkPlaced(w: World, g: nat, q: seq<Push>)
    requires HistOk(w) && PubsOk(w) && Placed(w, g) && QueueOk(w.hist, q)
    ensures Walk(g, q).Some? ==> Placed(w, Walk(g, q).value) && g <= Walk(g, q).value
    decreases |q|
  {
    if q != [] {
      OneWalk(w, g, q[0]);
      WalkConcat(g, [q[0]], q[1..]);
      assert [q[0]] + q[1..] == q;
      if Walk(g, [q[0]]).Some? {
        WalkPlaced(w, Walk(g, [q[0]]).value, q[1..]);
      }
    }
  }

  lemma OneWalk(w: World, g: nat, p: Push)
    requires |w.hist| >= 1 && PubsOk(w) && Placed(w, g) && PushOk(w.hist, p)
    ensures Walk(g, [p]).Some? ==> Placed(w, Walk(g, [p]).value) && g <= Walk(g, [p]).value
  {
    WalkOne(g, p);
    match p
    case PushDelta(d) =>
      var k :| 0 <= k < |w.hist| - 1 && d == Diff(w.hist[k], w.hist[k + 1]);
      assert w.hist[k + 1].gen in w.pubs;
    case PushSnapshot(s) =>
      var k :| 1 <= k < |w.hist| && s == w.hist[k];
      assert w.hist[k].gen in w.pubs;
    case _ =>
  }

  /** A generation that was published and is not older than this history is one of it. */
  lemma PlaceInHist(w: World, g: nat, b: nat) returns (k: nat)
    requires HistOk(w) && PubsOk(w) && Placed(w, g) && b < |w.hist| && w.hist[b].gen <= g
    ensures b <= k < |w.hist| && w.hist[k].gen == g
  {
    assert w.hist[0].gen <= w.hist[b].gen;
    assert InHist(w.hist, g);
    k :| 1 <= k < |w.hist| && w.hist[k].gen == g;
    NotBefore(w.hist, b, k);
  }

  lemma NotBefore(hist: seq<Snapshot>, b: nat, k: nat)
    requires Rising(hist) && b < |hist| && k < |hist| && hist[b].gen <= hist[k].gen
    ensures b <= k
  {
  }

  /** Any part of a catch-up leaves no gap for a holder at or past its start; all of it, nothing missing. */
  lemma CatchUpWalks(w: World, have: nat, g: nat, m: nat)
    requires HistOk(w) && PubsOk(w) && Placed(w, g) && have <= g && m <= |w.net.Pushes(have)|
    ensures Walk(g, w.net.Pushes(have)[..m]).Some?
    ensures m == |w.net.Pushes(have)| ==> Walk(g, w.net.Pushes(have)[..m]) == Some(w.net.dir.gen)
  {
    if DeltasSince(w.net.dir, have).Some? {
      ChainWalks(w, have, g, m);
    } else {
      SnapshotWalks(w, have, g);
      var ps := w.net.Pushes(have);
      assert m == 0 ==> ps[..m] == [];
      assert m == 1 ==> ps[..m] == ps;
    }
  }

  lemma ChainWalks(w: World, have: nat, g: nat, m: nat)
    requires HistOk(w) && PubsOk(w) && Placed(w, g) && have <= g && m <= |w.net.Pushes(have)|
    requires DeltasSince(w.net.dir, have).Some?
    ensures Walk(g, w.net.Pushes(have)[..m]).Some?
    ensures m == |w.net.Pushes(have)| ==> Walk(g, w.net.Pushes(have)[..m]) == Some(w.net.dir.gen)
  {
    LastIsPublished(w);
    var b := PushesOnward(w, have);
    var k := PlaceInHist(w, g, b);
    WholeOnward(w.hist, b, k, m, w.net.Pushes(have));
  }

  lemma WholeOnward(hist: seq<Snapshot>, b: nat, k: nat, m: nat, ps: seq<Push>)
    requires Rising(hist) && b <= k < |hist| && ps == Onward(hist, b) && m <= |ps|
    ensures Walk(hist[k].gen, ps[..m]).Some?
    ensures m == |ps| ==> Walk(hist[k].gen, ps[..m]) == Some(hist[|hist| - 1].gen)
  {
    OnwardLength(hist, b);
    WalkOnward(hist, b, k, m);
  }

  lemma SnapshotWalks(w: World, have: nat, g: nat)
    requires HistOk(w) && PubsOk(w) && Placed(w, g) && DeltasSince(w.net.dir, have).None?
    ensures |w.net.Pushes(have)| == 1 && Walk(g, w.net.Pushes(have)) == Some(w.net.dir.gen)
  {
    LastIsPublished(w);
    PubsAreNotNewer(w);
    var ps := w.net.Pushes(have);
    assert ps == [PushSnapshot(w.net.dir.published)] && ps[1..] == [];
  }

  /**
   A whole catch-up from `have` takes a holder of `g` to the current view exactly when the ring
   no longer reaches back to `have`, or `have` is not ahead of `g`.
   */
  lemma CatchUpReachesIff(w: World, have: nat, g: nat)
    requires HistOk(w) && PubsOk(w) && Placed(w, g)
    ensures Walk(g, w.net.Pushes(have)) == Some(w.net.dir.gen) <==> DeltasSince(w.net.dir, have).None? || have <= g
  {
    var ps := w.net.Pushes(have);
    assert ps[..|ps|] == ps;
    if have <= g {
      CatchUpWalks(w, have, g, |ps|);
    } else if DeltasSince(w.net.dir, have).None? {
      SnapshotWalks(w, have, g);
    } else {
      LastIsPublished(w);
      var b := PushesOnward(w, have);
      if b + 1 < |w.hist| {
        assert w.hist[b].gen < w.hist[b + 1].gen;
      }
    }
  }

  // ---------- the flow of every connection ----------

  /** The connection its instance is reading from. */
  ghost predicate Reads(w: World, c: ConnId) {
    c in w.net.conns && w.net.conns[c].inst in w.insts && w.insts[w.net.conns[c].inst].conn == Some(c)
  }

  /** Read from and still open: whatever is queued on it will be written. */
  ghost predicate Live(w: World, c: ConnId) {
    Reads(w, c) && !w.net.conns[c].closing
  }

  function Copy(w: World, c: ConnId): Snapshot
    requires c in w.net.conns && w.net.conns[c].inst in w.insts
  {
    w.insts[w.net.conns[c].inst].copy
  }

  /** Where what is still to come on a connection leads. */
  function Ahead(w: World, c: ConnId): Option<nat>
    requires c in w.net.conns && w.net.conns[c].inst in w.insts
  {
    Walk(Copy(w, c).gen, w.net.conns[c].Coming())
  }

  ghost predicate NoGap(w: World, c: ConnId) {
    Reads(w, c) ==> Ahead(w, c).Some?
  }

  ghost predicate Synced(w: World, n: NodeId) {
    n in w.net.sessions && w.net.sessions[n].synced
  }

  ghost predicate Current(w: World, n: NodeId) {
    Synced(w, n) ==> Live(w, w.net.sessions[n].conn) ==> Ahead(w, w.net.sessions[n].conn) == Some(w.net.dir.gen)
  }

  ghost predicate Flow(w: World) {
    (forall c :: NoGap(w, c)) && (forall n :: Current(w, n))
  }

  /** What was sent before a connection closed is the beginning of what was to come. */
  lemma ClosedWalks(conn: Conn, g: nat)
    requires Walk(g, conn.Coming()).Some?
    ensures Walk(g, conn.wire).Some?
  {
    WalkConcat(g, conn.wire, conn.chan);
  }

  /** Publishing offers the delta exactly on the connections of synced sessions. */
  lemma PublishedOffers(w: World, content: Snapshot, nowMs: nat, c: ConnId) returns (n: NodeId)
    requires HistOk(w) && w.net.Valid() && c in w.net.conns
    requires c in Published(w, content, nowMs).net.conns
    requires Published(w, content, nowMs).net.conns[c] != w.net.conns[c]
    ensures Synced(w, n) && w.net.sessions[n].conn == c && Extends(w, Published(w, content, nowMs))
    ensures var v := Published(w, content, nowMs);
            v.net.conns[c] == Offer(w.net.conns[c], PushDelta(Diff(w.net.dir.published, v.net.dir.published)))
  {
    PublishedExtends(w, content, nowMs);
    var (after, d) := Recomputed(w.net.dir, content, nowMs);
    assert w.net.Followed(c, w.net.sessions.Keys);
    n :| n in w.net.sessions.Keys && w.net.sessions[n].conn == c && w.net.sessions[n].synced;
  }

  lemma PublishedFlow(w: World, content: Snapshot, nowMs: nat, c: ConnId)
    requires Truth(w) && Flow(w) && Reads(w, c)
    ensures var v := Published(w, content, nowMs); Reads(v, c) && Ahead(v, c).Some?
  {
    var v := Published(w, content, nowMs);
    PublishedExtends(w, content, nowMs);
    assert NoGap(w, c);
    if v.net.conns[c] != w.net.conns[c] {
      var n := PublishedOffers(w, content, nowMs, c);
      if w.net.conns[c].closing {
        ClosedWalks(w.net.conns[c], Copy(w, c).gen);
      } else {
        assert Current(w, n);
        AnnouncedWalks(w, v, c);
      }
    }
  }

  /** One more delta on a queue that leads to its base. */
  lemma OneMoreWalks(g: nat, q: seq<Push>, prev: Snapshot, next: Snapshot)
    requires Walk(g, q) == Some(prev.gen) && prev.gen < next.gen
    ensures Walk(g, q + [PushDelta(Diff(prev, next))]) == Some(next.gen)
  {
    WalkConcat(g, q, [PushDelta(Diff(prev, next))]);
    WalkOne(prev.gen, PushDelta(Diff(prev, next)));
  }

  lemma OfferWalks(conn: Conn, g: nat, prev: Snapshot, next: Snapshot)
    requires !conn.closing && Walk(g, conn.Coming()) == Some(prev.gen) && prev.gen < next.gen
    ensures var sent := Offer(conn, PushDelta(Diff(prev, next)));
            if sent.closing then Walk(g, sent.Coming()).Some? else Walk(g, sent.Coming()) == Some(next.gen)
  {
    var p := PushDelta(Diff(prev, next));
    OneMoreWalks(g, conn.Coming(), prev, next);
    ClosedWalks(conn, g);
    assert conn.Room() ==> Offer(conn, p).Coming() == conn.Coming() + [p];
  }

  lemma AnnouncedWalks(w: World, v: World, c: ConnId)
    requires HistOk(w) && Extends(w, v) && Live(w, c) && Reads(v, c) && Ahead(w, c) == Some(w.net.dir.gen)
    requires v.net.conns[c] == Offer(w.net.conns[c], PushDelta(Diff(w.net.dir.published, v.net.dir.published)))
    ensures if Live(v, c) then Ahead(v, c) == Some(v.net.dir.gen) else Ahead(v, c).Some?
  {
    LastIsPublished(w);
    OfferWalks(w.net.conns[c], Copy(w, c).gen, w.net.dir.published, v.net.dir.published);
  }

  lemma PublishedCurrent(w: World, content: Snapshot, nowMs: nat, n: NodeId)
    requires Truth(w) && Flow(w)
    ensures Current(Published(w, content, nowMs), n)
  {
    var v := Published(w, content, nowMs);
    PublishedExtends(w, content, nowMs);
    assert Current(w, n);
    if Extends(w, v) && Synced(v, n) && Live(v, v.net.sessions[n].conn) {
      var c := w.net.sessions[n].conn;
      SyncedIsAnnounced(w, content, nowMs, n);
      AnnouncedWalks(w, v, c);
    }
  }

  lemma SyncedIsAnnounced(w: World, content: Snapshot, nowMs: nat, n: NodeId)
    requires HistOk(w) && w.net.Valid()
    requires Extends(w, Published(w, content, nowMs)) && Synced(Published(w, content, nowMs), n)
    ensures Synced(w, n) && w.net.sessions[n].conn in w.net.conns
    ensures var v, c := Published(w, content, nowMs), w.net.sessions[n].conn;
            && c in v.net.conns && v.net.conns[c].closing == w.net.conns[c].closing
            && v.net.conns[c] == Offer(w.net.conns[c], PushDelta(Diff(w.net.dir.published, v.net.dir.published)))
  {
    var (after, d) := Recomputed(w.net.dir, content, nowMs);
    var c := w.net.sessions[n].conn;
    assert n in w.net.sessions.Keys && w.net.Followed(c, w.net.sessions.Keys);
  }

  lemma PublishedKeepsFlow(w: World, content: Snapshot, nowMs: nat)
    requires Truth(w) && Flow(w)
    ensures Flow(Published(w, content, nowMs))
  {
    var v := Published(w, content, nowMs);
    forall c
      ensures NoGap(v, c)
    {
      PublishedExtends(w, content, nowMs);
      if Reads(v, c) { PublishedFlow(w, content, nowMs, c); }
    }
    forall n
      ensures Current(v, n)
    {
      PublishedCurrent(w, content, nowMs, n);
    }
  }

  // ---------- when a catch-up is harmless ----------

  /**
   A catch-up of this node from `have` does no harm: nobody reads it, or it does not fit and the
   connection is closed, or the ring no longer reaches back to `have`, or what is already to come
   leads at least as far as `have`.
   */
  ghost predicate Harmless(w: World, node: NodeId, have: nat) {
    node in w.net.sessions ==>
      var c := w.net.sessions[node].conn;
      Live(w, c) && Fits(w.net.conns[c], w.net.Pushes(have)) ==>
        DeltasSince(w.net.dir, have).None? || (Ahead(w, c).Some? && have <= Ahead(w, c).value)
  }

  lemma ComingOk(hist: seq<Snapshot>, conn: Conn)
    requires QueueOk(hist, conn.Queue())
    ensures QueueOk(hist, conn.Coming())
  {
  }

  /** Where what is to come leads was published, and not before the copy. */
  lemma AheadPlaced(w: World, c: ConnId)
    requires Truth(w) && Reads(w, c) && Ahead(w, c).Some?
    ensures Placed(w, Ahead(w, c).value) && Copy(w, c).gen <= Ahead(w, c).value
  {
    var conn := w.net.conns[c];
    assert ConnOk(w, conn) && InstOk(w.pubs, w.insts[conn.inst]);
    ComingOk(w.hist, conn);
    WalkPlaced(w, Copy(w, c).gen, conn.Coming());
  }

  /** A catch-up that fits an open connection takes what was to come to the current view, exactly if it is harmless. */
  lemma CaughtUpReaches(w: World, node: NodeId, have: nat)
    requires Truth(w) && Flow(w) && node in w.net.sessions && Live(w, w.net.sessions[node].conn)
    requires Fits(w.net.conns[w.net.sessions[node].conn], w.net.Pushes(have))
    ensures var v, c := CaughtUp(w, node, have), w.net.sessions[node].conn;
            && Live(v, c) && v.net.sessions[node].synced
            && (Ahead(v, c) == Some(w.net.dir.gen) <==> Harmless(w, node, have))
  {
    var c := w.net.sessions[node].conn;
    var conn, ps := w.net.conns[c], w.net.Pushes(have);
    assert NoGap(w, c);
    AheadPlaced(w, c);
    SentIffFits(conn, ps);
    var k := SendAllQueues(conn, ps);
    assert ps[..k] == ps;
    assert CaughtUp(w, node, have).net.conns[c].Coming() == conn.Coming() + ps;
    WalkConcat(Copy(w, c).gen, conn.Coming(), ps);
    CatchUpReachesIff(w, have, Ahead(w, c).value);
  }

  /** Otherwise what is to come is what was, or what of it was already sent. */
  lemma CaughtUpCloses(w: World, node: NodeId, have: nat)
    requires Truth(w) && Flow(w) && node in w.net.sessions && Reads(w, w.net.sessions[node].conn)
    requires !(Live(w, w.net.sessions[node].conn) && Fits(w.net.conns[w.net.sessions[node].conn], w.net.Pushes(have)))
    ensures var v, c := CaughtUp(w, node, have), w.net.sessions[node].conn;
            Reads(v, c) && !Live(v, c) && Ahead(v, c).Some?
  {
    var c := w.net.sessions[node].conn;
    var conn, ps := w.net.conns[c], w.net.Pushes(have);
    assert NoGap(w, c);
    SentIffFits(conn, ps);
    var k := SendAllQueues(conn, ps);
    ClosedWalks(conn, Copy(w, c).gen);
  }

  /** Catching a session up keeps every flow exactly if it is harmless. */
  lemma CaughtUpKeepsFlow(w: World, node: NodeId, have: nat)
    requires Truth(w) && Flow(w)
    ensures Flow(CaughtUp(w, node, have)) <==> Harmless(w, node, have)
  {
    var v := CaughtUp(w, node, have);
    if node in w.net.sessions {
      var c := w.net.sessions[node].conn;
      if Live(w, c) && Fits(w.net.conns[c], w.net.Pushes(have)) {
        CaughtUpReaches(w, node, have);
        if Flow(v) { assert Current(v, node); }
      } else if Reads(w, c) {
        CaughtUpCloses(w, node, have);
      }
      if Harmless(w, node, have) {
        CaughtUpFlows(w, node, have);
      }
    }
  }

  lemma CaughtUpFlows(w: World, node: NodeId, have: nat)
    requires Truth(w) && Flow(w) && node in w.net.sessions
    requires var v, c := CaughtUp(w, node, have), w.net.sessions[node].conn;
             Reads(v, c) ==> Ahead(v, c).Some? && (Live(v, c) ==> Ahead(v, c) == Some(w.net.dir.gen))
    ensures Flow(CaughtUp(w, node, have))
  {
    var v := CaughtUp(w, node, have);
    forall x
      ensures NoGap(v, x)
    {
      assert NoGap(w, x);
    }
    forall n
      ensures Current(v, n)
    {
      assert Current(w, n);
    }
  }

  // ---------- every step keeps the flow ----------

  /** What is to come leads where it led. */
  lemma SetConnFlow(w: World, c: ConnId, conn: Conn)
    requires Flow(w) && c in w.net.conns && conn.inst == w.net.conns[c].inst && conn.closing == w.net.conns[c].closing
    requires forall g: nat :: Walk(g, conn.Coming()) == Walk(g, w.net.conns[c].Coming())
    ensures Flow(SetConn(w, c, conn))
  {
    var v := SetConn(w, c, conn);
    forall x
      ensures NoGap(v, x)
    {
      assert NoGap(w, x);
    }
    forall n
      ensures Current(v, n)
    {
      assert Current(w, n);
    }
  }

  lemma RetiredKeepsFlow(w: World, c: ConnId)
    requires Flow(w) && w.net.Valid() && c in w.net.conns
    ensures Flow(Retired(w, c))
  {
    var v := Retired(w, c);
    forall x
      ensures NoGap(v, x)
    {
      assert NoGap(w, x);
      if x == c && Reads(w, c) { ClosedWalks(w.net.conns[c], Copy(w, c).gen); }
    }
    forall n
      ensures Current(v, n)
    {
      assert Current(w, n);
    }
  }

  lemma SeatedKeepsFlow(w: World, i: nat)
    requires Truth(w) && Flow(w) && i in w.insts && w.insts[i].conn.None? && w.nextConn !in w.net.conns
    ensures Flow(SeatedWorld(w, i))
    ensures Live(SeatedWorld(w, i), w.nextConn) && Copy(SeatedWorld(w, i), w.nextConn) == w.insts[i].copy
  {
    var v := SeatedWorld(w, i);
    assert v.net.conns[w.nextConn].Coming() == [];
    forall x
      ensures NoGap(v, x)
    {
      assert NoGap(w, x);
    }
    forall n
      ensures Current(v, n)
    {
      assert Current(w, n);
    }
  }

  /** The new session is seated and told of the view as it is now. */
  lemma SeatedTold(w: World, i: nat, content: Snapshot, nowMs: nat)
    requires Truth(w) && Flow(w) && i in w.insts && w.insts[i].conn.None? && w.nextConn !in w.net.conns &&
             Shown(content)
    ensures var told := Published(SeatedWorld(w, i), content, nowMs);
            && Truth(told) && Started(told) && Flow(told)
            && told.insts == SeatedWorld(w, i).insts && SeatedWorld(w, i).net.SameSeats(told.net)
  {
    var seated := SeatedWorld(w, i);
    SeatedKeeps(w, i);
    SeatedKeepsFlow(w, i);
    PublishedKeeps(seated, content, nowMs);
    PublishedSomething(seated, content, nowMs);
    PublishedKeepsFlow(seated, content, nowMs);
    PublishedExtends(seated, content, nowMs);
  }

  /** A generation the reading instance has held is always harmless. */
  lemma HeldIsHarmless(w: World, node: NodeId, have: nat)
    requires Truth(w) && Flow(w)
    requires node in w.net.sessions && Live(w, w.net.sessions[node].conn) ==>
             have <= Copy(w, w.net.sessions[node].conn).gen
    ensures Harmless(w, node, have)
  {
    if node in w.net.sessions && Live(w, w.net.sessions[node].conn) {
      var c := w.net.sessions[node].conn;
      assert NoGap(w, c);
      AheadPlaced(w, c);
    }
  }

  lemma ConnectKeepsFlow(w: World, i: nat, content: Snapshot, nowMs: nat, grace: bool)
    requires Truth(w) && Flow(w) && Enabled(w, Connect(i, content, nowMs, grace))
    ensures Flow(Step(w, Connect(i, content, nowMs, grace)))
  {
    ConnectIs(w, i, content, nowMs, grace);
    SeatedTold(w, i, content, nowMs);
    var node, had := w.insts[i].node, w.net.sessions;
    var told := Published(SeatedWorld(w, i), content, nowMs);
    if !grace {
      HeldIsHarmless(told, node, w.insts[i].copy.gen);
      CaughtUpKeepsFlow(told, node, w.insts[i].copy.gen);
    }
    var caught := if grace then told else CaughtUp(told, node, w.insts[i].copy.gen);
    if node in had {
      RetiredKeepsFlow(caught, had[node].conn);
    }
  }

  /** Reading the head of the queue moves the copy along the same walk. */
  lemma DeliverKeepsFlow(w: World, c: ConnId)
    requires Truth(w) && Flow(w) && Enabled(w, Deliver(c))
    ensures Flow(Step(w, Deliver(c)))
  {
    var v := Step(w, Deliver(c));
    DeliverWalks(w, c);
    forall x
      ensures NoGap(v, x)
    {
      assert NoGap(w, x);
    }
    forall n
      ensures Current(v, n)
    {
      assert Current(w, n);
    }
  }

  lemma DeliverWalks(w: World, c: ConnId)
    requires Truth(w) && Flow(w) && Enabled(w, Deliver(c))
    ensures var v := Step(w, Deliver(c)); Reads(v, c) && Ahead(v, c) == Ahead(w, c)
  {
    var conn := w.net.conns[c];
    var m, p, rest := w.insts[conn.inst], conn.wire[0], conn.(wire := conn.wire[1..]);
    assert NoGap(w, c) && ConnOk(w, conn) && InstOk(w.pubs, m);
    assert conn.Coming() == [p] + rest.Coming();
    assert p in conn.Queue();
    OneReceived(w, m.copy, p);
    WalkConcat(m.copy.gen, [p], rest.Coming());
  }

  /** A report folded in does no harm where the coordinator stands after the report's own publish. */
  ghost predicate Guarded(w: World, e: Event)
    requires w.net.Valid()
  {
    match e
    case Beat(i, r, publish, grace) =>
      i in w.insts && !grace ==>
        var told := Told(w, publish);
        r.gen != told.net.dir.gen ==> Harmless(told, w.insts[i].node, r.gen)
    case Ask(i, r, grace) => i in w.insts && !grace ==> Harmless(w, w.insts[i].node, r.gen)
    case _ => true
  }

  /** The reporter is the instance whose session is registered. */
  ghost predicate Own(w: World, e: Event) {
    (e.Beat? || e.Ask?) && e.i in w.insts && w.insts[e.i].node in w.net.sessions ==>
      var c := w.net.sessions[w.insts[e.i].node].conn;
      c in w.net.conns ==> w.net.conns[c].inst == e.i
  }

  /** Own reports are always harmless. */
  lemma OwnReportsAreGuarded(w: World, e: Event)
    requires Truth(w) && Started(w) && Flow(w) && Enabled(w, e) && Own(w, e)
    ensures Guarded(w, e)
  {
    if e.Beat? {
      ToldKeeps(w, e.publish);
      ToldKeepsFlow(w, e.publish);
      OwnIsHarmless(Told(w, e.publish), e.i, e.r);
    } else if e.Ask? {
      OwnIsHarmless(w, e.i, e.r);
    }
  }

  lemma OwnIsHarmless(w: World, i: nat, r: Report)
    requires Truth(w) && Flow(w) && i in w.insts && r in w.insts[i].said && Own(w, Ask(i, r, false))
    ensures Harmless(w, w.insts[i].node, r.gen)
  {
    assert InstOk(w.pubs, w.insts[i]);
    HeldIsHarmless(w, w.insts[i].node, r.gen);
  }

  lemma BeatKeepsFlow(w: World, e: Event)
    requires Truth(w) && Started(w) && Flow(w) && Enabled(w, e) && e.Beat?
    ensures Flow(Step(w, e)) <==> Guarded(w, e)
  {
    BeatIs(w, e.i, e.r, e.publish, e.grace);
    ToldKeeps(w, e.publish);
    ToldKeepsFlow(w, e.publish);
    var told, node := Told(w, e.publish), w.insts[e.i].node;
    if !e.grace && e.r.gen != told.net.dir.gen {
      CaughtUpKeepsFlow(told, node, e.r.gen);
    } else if !e.grace {
      HeldIsHarmless(told, node, 0);
      CaughtUpKeepsFlow(told, node, 0);
    }
  }

  lemma ToldKeepsFlow(w: World, publish: Option<(Snapshot, nat)>)
    requires Truth(w) && Flow(w)
    ensures Flow(Told(w, publish)) && Told(w, publish).insts == w.insts && w.net.SameSeats(Told(w, publish).net)
  {
    if publish.Some? {
      PublishedKeepsFlow(w, publish.value.0, publish.value.1);
      PublishedExtends(w, publish.value.0, publish.value.1);
    }
  }

  lemma UnseatedKeepsFlow(w: World, node: NodeId)
    requires Flow(w)
    ensures Flow(Unseated(w, node))
  {
    var v := Unseated(w, node);
    forall x
      ensures NoGap(v, x)
    {
      assert NoGap(w, x);
    }
    forall n
      ensures Current(v, n)
    {
      assert Current(w, n);
    }
  }

  lemma TeardownKeepsFlow(w: World, c: ConnId, content: Snapshot, nowMs: nat)
    requires Truth(w) && Started(w) && Flow(w) && Enabled(w, Teardown(c, content, nowMs))
    ensures Flow(Step(w, Teardown(c, content, nowMs)))
  {
    var node := w.insts[w.net.conns[c].inst].node;
    TeardownIs(w, c, content, nowMs);
    if node in w.net.sessions && w.net.sessions[node].conn == c {
      UnseatedKeeps(w, node);
      UnseatedKeepsFlow(w, node);
      PublishedKeepsFlow(Unseated(w, node), content, nowMs);
    }
  }

  /** Steps that leave every copy and every connection's reader alone, or only stop reading. */
  lemma InstKeepsFlow(w: World, i: nat, m: Inst)
    requires Truth(w) && Flow(w)
    requires i in w.insts ==> m.copy == w.insts[i].copy && (m.conn == w.insts[i].conn || m.conn.None?)
    ensures Flow(SetInst(w, i, m))
  {
    var v := SetInst(w, i, m);
    forall x
      ensures NoGap(v, x)
    {
      assert NoGap(w, x);
      if x in w.net.conns { assert ConnOk(w, w.net.conns[x]); }
    }
    forall n
      ensures Current(v, n)
    {
      assert Current(w, n);
      if n in w.net.sessions { assert ConnOk(w, w.net.conns[w.net.sessions[n].conn]); }
    }
  }

  lemma RawIsQuiet(c: Conn, g: nat)
    requires c.Room()
    ensures Walk(g, Offer(c, Raw).Coming()) == Walk(g, c.Coming())
  {
    WalkConcat(g, c.Coming(), [Raw]);
    if Walk(g, c.Coming()).Some? {
      WalkOne(Walk(g, c.Coming()).value, Raw);
    }
    assert Offer(c, Raw).Coming() == if c.closing then c.Coming() else c.Coming() + [Raw];
  }

  lemma QueueKeepsFlow(w: World, e: Event)
    requires w.net.Valid() && Flow(w) && Enabled(w, e) && (e.SendRaw? || e.Write? || e.WriterGone?)
    ensures Flow(Step(w, e))
  {
    var conn := w.net.conns[e.c];
    if e.SendRaw? {
      forall g: nat
        ensures Walk(g, Offer(conn, Raw).Coming()) == Walk(g, conn.Coming())
      {
        RawIsQuiet(conn, g);
      }
      SetConnFlow(w, e.c, Offer(conn, Raw));
    } else if e.Write? {
      var sent := conn.(wire := conn.wire + [conn.chan[0]], chan := conn.chan[1..]);
      assert sent.Coming() == conn.Coming();
      SetConnFlow(w, e.c, sent);
    } else {
      assert conn.(up := false).Coming() == conn.Coming();
      SetConnFlow(w, e.c, conn.(up := false));
    }
  }

  /** A step keeps the flow exactly if what it folds in is harmless. */
  lemma StepKeepsFlow(w: World, e: Event)
    requires Truth(w) && Started(w) && Flow(w) && Enabled(w, e)
    ensures Flow(Step(w, e)) <==> Guarded(w, e)
  {
    match e
    case Boot(i, node) => InstKeepsFlow(w, i, Inst(node, EMPTY, None, {}));
    case Connect(i, content, nowMs, grace) => ConnectKeepsFlow(w, i, content, nowMs, grace);
    case Publish(content, nowMs) => PublishedKeepsFlow(w, content, nowMs);
    case Say(i) => InstKeepsFlow(w, i, w.insts[i].(said := w.insts[i].said + {ReportOf(w.insts[i].copy)}));
    case Beat(_, _, _, _) => BeatKeepsFlow(w, e);
    case Ask(i, r, grace) => CaughtUpKeepsFlow(w, w.insts[i].node, r.gen);
    case Deliver(c) => DeliverKeepsFlow(w, c);
    case Hangup(i) => InstKeepsFlow(w, i, Disconnected(w.insts[i]));
    case Teardown(c, content, nowMs) => TeardownKeepsFlow(w, c, content, nowMs);
    case Crash(nowMs) =>
    case _ => QueueKeepsFlow(w, e);
  }

  // ---------- whole runs ----------

  ghost predicate GuardedFollows(w: World, v: World) {
    w.net.Valid() && exists e: Event :: Enabled(w, e) && Guarded(w, e) && v == Step(w, e)
  }

  /** A run in which no report folded in does harm. */
  ghost predicate IsGuardedRun(run: seq<World>) {
    && |run| > 0 && (exists nowMs: nat :: run[0] == Init(nowMs))
    && forall k :: 0 < k < |run| ==> GuardedFollows(run[k - 1], run[k])
  }

  lemma GuardedStep(w: World, v: World)
    requires Truth(w) && Started(w) && Flow(w) && GuardedFollows(w, v)
    ensures Truth(v) && Started(v) && Flow(v)
  {
    var e: Event :| Enabled(w, e) && Guarded(w, e) && v == Step(w, e);
    StepKeepsTruth(w, e);
    StepKeepsFlow(w, e);
  }

  lemma {:induction false} RunKeepsFlow(run: seq<World>, k: nat)
    requires IsGuardedRun(run) && k < |run|
    ensures Truth(run[k]) && Started(run[k]) && Flow(run[k])
  {
    if k == 0 {
      var nowMs: nat :| run[0] == Init(nowMs);
      InitIsTrue(nowMs);
    } else {
      RunKeepsFlow(run, k - 1);
      GuardedStep(run[k - 1], run[k]);
    }
  }

  /** What a member still reads takes it through without a gap, to the published view if its session is synced. */
  ghost predicate Converges(w: World) {
    && (forall c :: Reads(w, c) ==> Drained(Copy(w, c), w.net.conns[c].Coming()).Ok?)
    && (forall n :: Synced(w, n) && Live(w, w.net.sessions[n].conn) ==>
          var c := w.net.sessions[n].conn;
          Drained(Copy(w, c), w.net.conns[c].Coming()) == Ok(w.net.dir.published))
  }

  /**
   In every run in which no report folded in does harm, no member meets a generation gap on the
   connection it reads from, and what is queued for a synced session takes its member's copy
   exactly to the published view.
   */
  lemma SyncedSessionsConverge(run: seq<World>, k: nat)
    requires IsGuardedRun(run) && k < |run|
    ensures Converges(run[k])
  {
    RunKeepsFlow(run, k);
    var w := run[k];
    forall c | Reads(w, c)
      ensures Drained(Copy(w, c), w.net.conns[c].Coming()).Ok?
      ensures Ahead(w, c) == Some(w.net.dir.gen) ==>
              Drained(Copy(w, c), w.net.conns[c].Coming()) == Ok(w.net.dir.published)
    {
      ReaderDrains(w, c);
    }
    forall n | Synced(w, n) && Live(w, w.net.sessions[n].conn)
      ensures Ahead(w, w.net.sessions[n].conn) == Some(w.net.dir.gen)
    {
      assert Current(w, n);
    }
  }

  lemma ReaderDrains(w: World, c: ConnId)
    requires Truth(w) && Started(w) && Flow(w) && Reads(w, c)
    ensures Drained(Copy(w, c), w.net.conns[c].Coming()).Ok?
    ensures Ahead(w, c) == Some(w.net.dir.gen) ==>
            Drained(Copy(w, c), w.net.conns[c].Coming()) == Ok(w.net.dir.published)
  {
    var conn := w.net.conns[c];
    assert NoGap(w, c) && ConnOk(w, conn) && InstOk(w.pubs, w.insts[conn.inst]);
    ComingOk(w.hist, conn);
    DrainFollowsWalk(w, Copy(w, c), conn.Coming());
    LastIsPublished(w);
    assert |w.hist| >= 2;
    assert w.hist[|w.hist| - 1].gen in w.pubs;
  }

  // ---------- two instances of one node ----------

  // A report is folded in by node, not by session. The grace window is past when the first instance
  // registers and reads the view, stands again when the second one registers and so is not caught
  // up, and is past again when a late report of the first one is folded in: its catch-up starts at a
  // generation the second one never held. A window opens again only if its configured length is
  // raised while the process runs, or the clock steps back.

  function View(mtu: nat): Snapshot {
    EMPTY.(mtu := Mtu(mtu, "config"))
  }

  /** With nobody synced, publishing a different view only moves the directory. */
  lemma UnheardPublish(net: NetView, mtu: nat)
    requires net.Valid() && (forall n <- net.sessions :: !net.sessions[n].synced) && net.dir.published.mtu.mtu != mtu
    requires |net.dir.ring| < RING
    ensures var after, s := net.Publish(View(mtu), 0), NextView(net.dir, View(mtu), 0);
            && after.sessions == net.sessions && after.conns == net.conns
            && after.dir == Dir(net.dir.gen + 1, s, net.dir.ring + [Diff(net.dir.published, s)])
  {
    var (d, delta) := Recomputed(net.dir, View(mtu), 0);
    assert Candidate(net.dir, View(mtu)).mtu.mtu == mtu;
    var net' := net.(dir := d, mark := NoteGen(net.mark, d.gen));
    assert net'.Broadcast(delta.value).sessions == net'.sessions;
    assert net'.Broadcast(delta.value).conns == net'.conns;
  }

  lemma FirstRegisters(net: NetView, g: nat)
    requires net.dir == FreshDir(g) && net.sessions == map[] && net.conns == map[] && g > 0
    ensures var after, s := net.Register(7, 0, 0, 0, View(1280), 0, false), NextView(FreshDir(g), View(1280), 0);
            && after.dir == Dir(g + 1, s, [Diff(net.dir.published, s)])
            && after.sessions.Keys == {7} && after.sessions[7] == Session(0, true)
            && after.conns.Keys == {0} && after.conns[0] == Conn(0, [PushSnapshot(s)], [], true, false)
  {
    var seated, s := net.Seated(7, 0, 0), NextView(FreshDir(g), View(1280), 0);
    UnheardPublish(seated, 1280);
    var told := seated.Publish(View(1280), 0);
    assert told.dir.ring == [Diff(net.dir.published, s)];
    WholeView(told, s);
  }

  /** A session that holds nothing is sent the whole view. */
  lemma WholeView(net: NetView, s: Snapshot)
    requires net.Valid() && net.dir.published == s && net.dir.gen > 0 && |net.dir.ring| == 1 &&
             net.dir.ring[0].baseGen > 0
    requires 7 in net.sessions && net.sessions[7] == Session(0, false) && net.conns[0] == Conn(0, [], [], true, false)
    ensures var after := net.CatchUp(7, 0);
            && after.dir == net.dir && after.sessions == net.sessions[7 := Session(0, true)]
            && after.conns == net.conns[0 := Conn(0, [PushSnapshot(s)], [], true, false)]
  {
    assert Position(net.dir.ring, 0) == 1;
    assert net.Pushes(0) == [PushSnapshot(s)];
    var c := net.conns[0];
    assert SendAll(c, net.Pushes(0)) == (Offer(c, PushSnapshot(s)), true);
    assert c.chan + [PushSnapshot(s)] == [PushSnapshot(s)];
  }

  /** The second instance is in and was sent nothing; the ring leads from the first view to the second. */
  ghost predicate SecondIn(net: NetView, s: Snapshot, d: Delta) {
    var t := net.dir.published;
    && net.dir == Dir(t.gen, t, [d, Diff(s, t)]) && s.gen < t.gen
    && 7 in net.sessions && net.sessions[7] == Session(1, false)
    && 1 in net.conns && net.conns[1] == Conn(1, [], [], true, false)
  }

  lemma SecondRegisters(net: NetView, s: Snapshot, d: Delta)
    requires net.dir.published == s && net.dir.gen == s.gen && net.dir.ring == [d] && s.mtu.mtu != 1281
    requires net.sessions.Keys == {7} && net.sessions[7] == Session(0, true)
    requires net.conns.Keys == {0} && net.conns[0] == Conn(0, [], [], true, false)
    ensures SecondIn(net.Register(7, 1, 1, 0, View(1281), 0, true), s, d)
  {
    var seated := net.Seated(7, 1, 1);
    assert seated.sessions.Keys == {7};
    UnheardPublish(seated, 1281);
  }

  lemma ReplacedReports(net: NetView, s: Snapshot, t: Snapshot, d: Delta)
    requires net.Valid() && net.dir == Dir(t.gen, t, [d, Diff(s, t)]) && d.baseGen < s.gen < t.gen
    requires 7 in net.sessions && net.sessions[7] == Session(1, false) && 1 in net.conns &&
             net.conns[1] == Conn(1, [], [], true, false)
    ensures var after := net.CatchUp(7, s.gen);
            && after.sessions[7] == Session(1, true) && after.conns.Keys == net.conns.Keys
            && after.conns[1].inst == 1 && after.conns[1].Coming() == [PushDelta(Diff(s, t))] && !after.conns[1].closing
  {
    var ring, p := net.dir.ring, PushDelta(Diff(s, t));
    assert ring[1..] == [Diff(s, t)] && ring[1..][1..] == [];
    assert Position(ring, s.gen) == 1;
    assert Contiguous(ring[1..], s.gen, t.gen);
    assert net.Pushes(s.gen) == [p];
    var c := net.conns[1];
    assert SendAll(c, [p]) == (Offer(c, p), true) by { assert [p][1..] == []; }
    assert c.chan + [p] == [p] && c.wire + [p] == [p];
  }

  ghost predicate Reachable(w: World) {
    exists run: seq<World> :: IsRun(run) && run[|run| - 1] == w
  }

  lemma RunExtends(run: seq<World>, v: World)
    requires IsRun(run) && Follows(run[|run| - 1], v)
    ensures IsRun(run + [v])
  {
    var more := run + [v];
    forall k | 0 < k < |more|
      ensures Follows(more[k - 1], more[k])
    {
      if k < |run| { assert Follows(run[k - 1], run[k]); }
    }
  }

  lemma ReachableStep(w: World, e: Event)
    requires Reachable(w) && w.net.Valid() && Enabled(w, e)
    ensures Reachable(Step(w, e))
  {
    var run: seq<World> :| IsRun(run) && run[|run| - 1] == w;
    RunExtends(run, Step(w, e));
    assert (run + [Step(w, e)])[|run|] == Step(w, e);
  }

  lemma ReachableInit()
    ensures Reachable(Init(0))
  {
    var run := [Init(0)];
    assert IsRun(run);
  }

  lemma ReachBooted() returns (w: World, g: nat)
    ensures Reachable(w) && g > 0 && w.net.dir == FreshDir(g) && w.net.sessions == map[] && w.net.conns == map[]
    ensures w.insts.Keys == {0, 1} && w.insts[0] == w.insts[1] == Inst(7, EMPTY, None, {}) && w.nextConn == 0
  {
    ReachableInit();
    var w0 := Init(0);
    ReachableStep(w0, Boot(0, 7));
    var w1 := Step(w0, Boot(0, 7));
    ReachableStep(w1, Boot(1, 7));
    w := Step(w1, Boot(1, 7));
    g := w.net.dir.gen;
  }

  /** Only the first instance is connected; its connection and itself are as given. */
  ghost predicate At(w: World, s: Snapshot, conn: Conn, m: Inst) {
    && w.net.Valid() && w.nextConn == 1 && Once(w.net.dir, s)
    && w.insts.Keys == {0, 1} && w.insts[0] == m && w.insts[1] == Inst(7, EMPTY, None, {})
    && w.net.sessions.Keys == {7} && w.net.sessions[7] == Session(0, true)
    && w.net.conns.Keys == {0} && w.net.conns[0] == conn
  }

  /** The directory published one view. */
  ghost predicate Once(dir: Dir, s: Snapshot) {
    && dir.published == s && dir.gen == s.gen > 0 && IsNormal(s) && s.mtu.mtu == 1280
    && |dir.ring| == 1 && dir.ring[0].baseGen < s.gen
  }

  /** The first instance is connected and current, its view still unread. */
  ghost predicate FirstIn(w: World, s: Snapshot) {
    At(w, s, Conn(0, [PushSnapshot(s)], [], true, false), Inst(7, EMPTY, Some(0), {}))
  }

  /** The first instance has read the view and reported it. */
  ghost predicate FirstRead(w: World, s: Snapshot) {
    At(w, s, Conn(0, [], [], true, false), Inst(7, s, Some(0), {ReportOf(s)}))
  }

  lemma FirstConnects(w: World, g: nat)
    requires g > 0 && w.net.dir == FreshDir(g) && w.net.sessions == map[] && w.net.conns == map[]
    requires w.insts.Keys == {0, 1} && w.insts[0] == w.insts[1] == Inst(7, EMPTY, None, {}) && w.nextConn == 0
    ensures var e, s := Connect(0, View(1280), 0, false), NextView(FreshDir(g), View(1280), 0);
            Enabled(w, e) && FirstIn(Step(w, e), s)
  {
    FirstRegisters(w.net, g);
    NextIsNormal(w.net.dir, View(1280), 0);
    var v := Step(w, Connect(0, View(1280), 0, false));
    assert v.net == w.net.Register(7, 0, 0, 0, View(1280), 0, false);
    assert v.net.dir.ring[0].baseGen == g;
  }

  lemma ReachFirst() returns (w: World, s: Snapshot)
    ensures Reachable(w) && FirstIn(w, s)
  {
    var w0, g := ReachBooted();
    FirstConnects(w0, g);
    ReachableStep(w0, Connect(0, View(1280), 0, false));
    w, s := Step(w0, Connect(0, View(1280), 0, false)), NextView(FreshDir(g), View(1280), 0);
  }

  lemma FirstWrites(w: World, s: Snapshot)
    requires FirstIn(w, s)
    ensures Enabled(w, Write(0))
    ensures At(Step(w, Write(0)), s, Conn(0, [], [PushSnapshot(s)], true, false), Inst(7, EMPTY, Some(0), {}))
  {
    var c := w.net.conns[0];
    assert c.chan[1..] == [] && c.wire + [c.chan[0]] == [PushSnapshot(s)];
  }

  lemma FirstReads(w: World, s: Snapshot)
    requires At(w, s, Conn(0, [], [PushSnapshot(s)], true, false), Inst(7, EMPTY, Some(0), {}))
    ensures Enabled(w, Deliver(0))
    ensures At(Step(w, Deliver(0)), s, Conn(0, [], [], true, false), Inst(7, s, Some(0), {}))
  {
    var conn := w.net.conns[0];
    var rest := conn.(wire := conn.wire[1..]);
    assert conn.wire[1..] == [];
    ReadsFirst(s, w.insts[0]);
    assert Step(w, Deliver(0)) == SetInst(SetConn(w, 0, rest), 0, Inst(7, s, Some(0), {}));
  }

  lemma ReadsFirst(s: Snapshot, m: Inst)
    requires IsNormal(s) && m.copy == EMPTY
    ensures Read(m, PushSnapshot(s)) == m.(copy := s)
  {
  }

  lemma FirstSays(w: World, s: Snapshot)
    requires At(w, s, Conn(0, [], [], true, false), Inst(7, s, Some(0), {}))
    ensures Enabled(w, Say(0)) && FirstRead(Step(w, Say(0)), s)
  {
    assert Step(w, Say(0)).insts[0].said == {ReportOf(s)};
  }

  lemma ReachRead() returns (w: World, s: Snapshot)
    ensures Reachable(w) && FirstRead(w, s)
  {
    var w0;
    w0, s := ReachFirst();
    FirstWrites(w0, s);
    ReachableStep(w0, Write(0));
    var w1 := Step(w0, Write(0));
    FirstReads(w1, s);
    ReachableStep(w1, Deliver(0));
    var w2 := Step(w1, Deliver(0));
    FirstSays(w2, s);
    ReachableStep(w2, Say(0));
    w := Step(w2, Say(0));
  }

  /** The node's session was taken over by another instance, within the grace window. */
  lemma ReachSecond() returns (w: World, s: Snapshot, d: Delta)
    ensures Reachable(w) && w.net.Valid() && w.insts.Keys == {0, 1}
    ensures w.insts[0].node == 7 && ReportOf(s) in w.insts[0].said && w.insts[1] == Inst(7, EMPTY, Some(1), {})
    ensures SecondIn(w.net, s, d) && d.baseGen < s.gen && s.gen > 0
  {
    var w0;
    w0, s := ReachRead();
    d := w0.net.dir.ring[0];
    SecondConnects(w0, s, d);
    var e := Connect(1, View(1281), 0, true);
    ReachableStep(w0, e);
    w := Step(w0, e);
  }

  /** What a connection does to the coordinator, whatever the rest of the world. */
  lemma ConnectNet(w: World, i: nat, content: Snapshot, grace: bool)
    requires w.net.Valid() && Enabled(w, Connect(i, content, 0, grace))
    ensures var v := Step(w, Connect(i, content, 0, grace));
            && v.net == w.net.Register(w.insts[i].node, w.nextConn, i, w.insts[i].copy.gen, content, 0, grace)
            && v.insts == w.insts[i := w.insts[i].(conn := Some(w.nextConn))]
  {
  }

  lemma SecondConnects(w: World, s: Snapshot, d: Delta)
    requires FirstRead(w, s) && d == w.net.dir.ring[0]
    requires Enabled(w, Connect(1, View(1281), 0, true))
    ensures var v := Step(w, Connect(1, View(1281), 0, true));
            v.net.Valid() && v.insts == w.insts[1 := Inst(7, EMPTY, Some(1), {})] && SecondIn(v.net, s, d)
  {
    ConnectNet(w, 1, View(1281), true);
    assert w.net.dir.ring == [d];
    SecondRegisters(w.net, s, d);
  }

  /**
   Where the grace window opens again the claim fails: a reachable world in which a synced session's
   queue meets a generation gap.
   */
  lemma ReplacedInstanceCanGap() returns (w: World)
    ensures Reachable(w) && w.net.Valid() && Synced(w, 7) && Live(w, w.net.sessions[7].conn)
    ensures Drained(Copy(w, w.net.sessions[7].conn), w.net.conns[w.net.sessions[7].conn].Coming()).Err?
  {
    var w0, s, d := ReachSecond();
    var e := Ask(0, ReportOf(s), false);
    ReachableStep(w0, e);
    w := Step(w0, e);
    ReplacedReports(w0.net, s, w0.net.dir.published, d);
    assert Applied(EMPTY, Diff(s, w0.net.dir.published)).Err?;
  }
}

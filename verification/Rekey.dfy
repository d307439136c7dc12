/**
 Two endpoints over a path that loses nothing and delivers within a bound. Once they share a
 session, every step keeps them in one phase of replacing it or none, and no data frame is lost.
 */
module Rekey {
  import opened Base
  import opened Replay
  import opened Seal
  import opened Sessions
  import opened EngineSpec

  /** A frame in the air: when it was sent and which side it is for. */
  datatype Wire = Wire(frame: Frame, at: nat, to: bool)

  /** Both ends (`false` and `true`), the clock they share, how long a frame toward each may
      take, and what became of the data frames that arrived. */
  datatype Link = Link(
    ends: map<bool, Core>, clock: nat, delay: map<bool, nat>,
    air: set<Wire>, delivered: set<Frame>, lost: set<Frame>)

  predicate Shape(l: Link) {
    && false in l.ends && true in l.ends && false in l.delay && true in l.delay
    && l.delay[false] + l.delay[true] < HANDSHAKE_TIMEOUT_SECS
  }

  /** What side `s` holds toward the other. */
  function Q(l: Link, s: bool): PeerSessions
    requires Shape(l)
  {
    l.ends[s].table.Of(l.ends[!s].id)
  }

  datatype Event =
    | Tick(now: nat)
    | Send(s: bool, pkt: Packet, wall: Tai64n)
    | Arrive(w: Wire)
    | Sweep(s: bool)

  predicate OnKey(f: Frame, k: PairKey) {
    f.Data? && f.ct.Sealed? && f.ct.key == k
  }

  /** No replacement is under way at either end. */
  predicate Alone(l: Link)
    requires Shape(l)
  {
    && Q(l, false).next.None? && Q(l, true).next.None?
    && Ready(Q(l, false).current) && Ready(Q(l, true).current)
  }

  /** Nothing in the air but frames on the key `s` sends on. */
  predicate AirOnKey(l: Link, s: bool)
    requires Shape(l) && Ready(Q(l, s).current)
  {
    forall w <- l.air :: OnKey(w.frame, Q(l, s).current.value.stage.key)
  }

  /** The session has carried as many frames as it may. */
  predicate Spent(q: PeerSessions) {
    Ready(q.current) && q.current.value.messages + 1 >= REKEY_AFTER_MESSAGES
  }

  /** Would sending now also start a replacement? */
  predicate StartsRekey(l: Link, s: bool)
    requires Shape(l)
  {
    && Ready(Q(l, s).current)
    && Q(l, s).(current := Some(Q(l, s).current.value.Seal([]).0)).NoteSent(l.clock).RekeyDue(l.clock)
  }

  /** Less than a window behind everything already delivered on its key and direction. */
  predicate InWindow(l: Link, f: Frame) {
    f.Data? ==> forall g <- l.delivered ::
      g.Data? && g.ct.Sealed? && f.ct.Sealed? && g.ct.key == f.ct.key && g.ct.byInitiator == f.ct.byInitiator
      ==> g.ctr < f.ctr + REPLAY_WINDOW
  }

  predicate NotPastDeadline(s: Option<Session>, now: nat) {
    Ready(s) ==> !s.value.MustExpire(now)
  }

  /**
   The path and the users of the link. Time may not pass a frame's deadline (nothing is
   lost), reordering stays within the window and neither hard deadline is reached. A side calls
   only if it is not being called, an answering side sends once its caller is in session, and a
   side starts a replacement only while none is under way; its msg1 clock is not at its end. A
   replacement that is due by the number of frames alone waits out stragglers on an older key.
   */
  predicate Enabled(l: Link, e: Event)
    requires Shape(l)
  {
    match e
    case Tick(now) => l.clock <= now && forall w <- l.air :: now <= w.at + l.delay[w.to]
    case Send(s, _, wall) =>
      && (Q(l, s).current.None? ==> Q(l, !s).current.None?) && (Ready(Q(l, s).current) ==> Ready(Q(l, !s).current))
      && (Q(l, s).current.None? || StartsRekey(l, s) ==> l.ends[s].lastTs.Before(l.ends[s].NextTs(wall)))
      && (StartsRekey(l, s) ==> Alone(l) && (Spent(Q(l, s)) ==> AirOnKey(l, s)))
    case Arrive(w) => w in l.air && InWindow(l, w.frame)
    case Sweep(s) => NotPastDeadline(Q(l, s).current, l.clock) && NotPastDeadline(Q(l, s).next, l.clock)
  }

  function Launch(fs: seq<Frame>, at: nat, to: bool): set<Wire> {
    set f | f in fs :: Wire(f, at, to)
  }

  function Step(l: Link, e: Event): Link
    requires Shape(l)
  {
    match e
    case Tick(now) => l.(clock := now)
    case Send(s, pkt, wall) =>
      var (c, fs) := l.ends[s].Outbound(l.ends[!s].id, pkt, PubkeyOf(l.ends[s].peers, l.ends[!s].id), l.clock, wall);
      l.(ends := l.ends[s := c], air := l.air + Launch(fs, l.clock, !s))
    case Arrive(w) =>
      var l1 := l.(air := l.air - {w});
      var peer := l.ends[!w.to].id;
      if w.frame.Handshake? then
        var (c, fs) := l.ends[w.to].OnHandshake(peer, w.frame.msg, PubkeyOf(l.ends[w.to].peers, peer), l.clock);
        var (d, gs) := c.FlushPending(peer, l.clock);
        l1.(ends := l.ends[w.to := d], air := l1.air + Launch(fs + gs, l.clock, !w.to))
      else
        var (c, fs, _) := l.ends[w.to].InboundData(peer, w.frame.ctr, w.frame.ct, l.clock);
        l1.(ends := l.ends[w.to := c], air := l1.air + Launch(fs, l.clock, !w.to),
            delivered := l.delivered + {w.frame},
            lost := if Q(l, w.to).Unseal(w.frame.ctr, w.frame.ct, l.clock).Ok? then l.lost else l.lost + {w.frame})
    case Sweep(s) => l.(ends := l.ends[s := l.ends[s].ExpireSessions(l.clock)])
  }

  // ---------- what holds between the two ends ----------

  /** The frame opens under `s` and its counter is still open there. */
  predicate Awaits(s: Option<Session>, f: Frame) {
    && Ready(s) && f.Data?
    && s.value.Opens(f.ctr, f.ct) && f.ctr !in s.value.seen
  }

  /** `r` receives what `s` seals, and nothing `s` will seal was seen there yet. */
  predicate Linked(s: Option<Session>, r: Option<Session>) {
    && Ready(s) && Ready(r)
    && s.value.stage.key == r.value.stage.key && s.value.initiator == !r.value.initiator
    && forall c <- r.value.seen :: c < s.value.stage.sendNonce
  }

  function Prev(q: PeerSessions): Option<Session> {
    if q.previous.Some? then Some(q.previous.value.0) else None
  }

  /** Some slot will open the frame whenever it arrives in time. */
  predicate Covered(q: PeerSessions, w: Wire, delay: nat) {
    || Awaits(q.current, w.frame) || Awaits(q.next, w.frame)
    || (Awaits(Prev(q), w.frame) && w.at + delay < q.previous.value.1 + PREVIOUS_GRACE_SECS)
  }

  /** A side that could tell the two ends apart and let each other in. */
  predicate Acquainted(l: Link)
    requires Shape(l)
  {
    var a, b := l.ends[false], l.ends[true];
    a.id != b.id && a.pub != b.pub && a.uuid == b.uuid
    && forall s :: KnowsPeer(l.ends[s], l.ends[!s])
  }

  predicate KnowsPeer(c: Core, o: Core) {
    && o.id in c.table.sessions && c.table.Queued(o.id) == []
    && PubkeyOf(c.peers, o.id) == Some(o.pub)
  }

  predicate NoLater(t: Tai64n, u: Tai64n) { !u.Before(t) }

  /** The watermark `c` holds for `o` is not ahead of what `o` has sent. */
  predicate MarkBehind(c: Core, o: Core) {
    (o.id, o.pub) in c.table.marks ==> NoLater(c.table.marks[(o.id, o.pub)], o.lastTs)
  }

  /** Every counter committed in `s` was delivered. */
  predicate SeenArrived(delivered: set<Frame>, s: Option<Session>) {
    Ready(s) ==> forall c <- s.value.seen :: exists g <- delivered ::
      g.Data? && g.ct.Sealed? && g.ct.key == s.value.stage.key && g.ct.byInitiator == !s.value.initiator && g.ctr == c
  }

  /** The ephemeral was drawn by one of the two ends. */
  predicate Drawn(l: Link, e: Eph)
    requires Shape(l)
  {
    forall s :: e.owner == l.ends[s].pub ==> e.idx < l.ends[s].nextEph
  }

  /** The side answered for a key other than the first only after a frame on it arrived. */
  predicate Confirmed(l: Link, first: PairKey, s: Option<Session>) {
    Ready(s) && !s.value.initiator && s.value.stage.key != first ==>
      exists g <- l.delivered :: OnKey(g, s.value.stage.key) && g.ct.byInitiator
  }

  /** Where a replacement stands: who started it, the key in use, the next one. */
  datatype Phase =
    | Steady
    | Asked(x: bool, w: Wire)
    | Answered(x: bool, w: Wire, t0: nat)
    | Switched(x: bool, w: Wire)

  predicate NoHandshakes(air: set<Wire>) {
    forall w <- air :: w.frame.Data?
  }

  /** The same counter of the same key toward the same side. */
  predicate Twins(w: Wire, v: Wire) {
    && w.to == v.to && w.frame.Data? && v.frame.Data? && w.frame.ct.Sealed? && v.frame.ct.Sealed?
    && w.frame.ct.key == v.frame.ct.key && w.frame.ctr == v.frame.ctr
  }

  predicate Distinct(air: set<Wire>) {
    forall w, v :: w in air && v in air && Twins(w, v) ==> w == v
  }

  /** A frame in the air is on time and, on its sender's current key, carries a past nonce. */
  predicate WireOk(l: Link, w: Wire)
    requires Shape(l)
  {
    && w.at <= l.clock <= w.at + l.delay[w.to]
    && (w.frame.Data? ==>
          && w.frame.ct.Sealed?
          && (Ready(Q(l, !w.to).current) && w.frame.ct.key == Q(l, !w.to).current.value.stage.key
              ==> w.frame.ctr < Q(l, !w.to).current.value.stage.sendNonce))
  }

  predicate AirOk(l: Link)
    requires Shape(l)
  {
    Distinct(l.air) && forall w <- l.air :: WireOk(l, w)
  }

  predicate SideOk(l: Link, first: PairKey, s: bool)
    requires Shape(l)
  {
    var q := Q(l, s);
    && Ready(q.current) && Drawn(l, q.current.value.stage.key.hs.e)
    && SeenArrived(l.delivered, q.current) && SeenArrived(l.delivered, q.next) && SeenArrived(l.delivered, Prev(q))
    && (q.previous.Some? ==> q.previous.value.0.IsReady() && q.previous.value.0.stage.key != q.current.value.stage.key)
    && Confirmed(l, first, q.current)
  }

  predicate Common(l: Link, first: PairKey)
    requires Shape(l)
  {
    && l.lost == {} && Acquainted(l) && AirOk(l)
    && SideOk(l, first, false) && SideOk(l, first, true)
  }

  /** Every data frame toward `s` is awaited by its current session. */
  predicate AllCurrent(l: Link, s: bool)
    requires Shape(l)
  {
    forall w <- l.air :: w.to == s && w.frame.Data? ==> Awaits(Q(l, s).current, w.frame)
  }

  predicate Together(l: Link)
    requires Shape(l)
  {
    Linked(Q(l, false).current, Q(l, true).current) && Linked(Q(l, true).current, Q(l, false).current)
  }

  predicate InPhase(l: Link, ph: Phase)
    requires Shape(l)
  {
    match ph
    case Steady => InSteady(l)
    case Asked(x, m) => InAsked(l, x, m)
    case Answered(x, m, t0) => InAnswered(l, x, m, t0)
    case Switched(x, k) => InSwitched(l, x, k)
  }

  /** No replacement under way; stragglers on an older key are still covered. */
  predicate InSteady(l: Link)
    requires Shape(l)
  {
    && NoHandshakes(l.air) && Together(l)
    && Q(l, false).next.None? && Q(l, true).next.None?
    && MarkBehind(l.ends[false], l.ends[true]) && MarkBehind(l.ends[true], l.ends[false])
    && (forall w <- l.air :: Covered(Q(l, w.to), w, l.delay[w.to]))
    && Recent(l, false) && Recent(l, true)
  }

  /** A frame sent before the session in use was old enough to be replaced. */
  predicate Early(q: PeerSessions, w: Wire) {
    && Ready(q.current) && w.at < q.current.value.establishedAt + 2 * HANDSHAKE_TIMEOUT_SECS
    && (q.awaitingSince.Some? ==> w.at < q.awaitingSince.value + HANDSHAKE_TIMEOUT_SECS)
  }

  /** Whatever is in the air on another key than `s` sends on was sent early. */
  predicate Recent(l: Link, s: bool)
    requires Shape(l)
  {
    forall w <- l.air :: Early(Q(l, s), w) ||
      (Ready(Q(l, s).current) && OnKey(w.frame, Q(l, s).current.value.stage.key))
  }

  /** `x` started a replacement; its msg1 is `m`. */
  predicate InAsked(l: Link, x: bool, m: Wire)
    requires Shape(l)
  {
    && Together(l) && AllCurrent(l, x) && AllCurrent(l, !x)
    && m in l.air && NoHandshakes(l.air - {m}) && m.to == !x
    && InFlight(l, x, m.at) && Q(l, !x).next.None?
    && MarkBehind(l.ends[x], l.ends[!x])
    && m.frame.Handshake? && m.frame.msg == Msg1(Q(l, x).next.value.Hs(), l.ends[x].lastTs)
    && l.ends[!x].table.AcceptsTs(l.ends[x].id, l.ends[x].pub, l.ends[x].lastTs)
  }

  /** The other side answered; its msg2 is `m`. */
  predicate InAnswered(l: Link, x: bool, m: Wire, t0: nat)
    requires Shape(l)
  {
    && Together(l) && AllCurrent(l, x) && AllCurrent(l, !x)
    && m in l.air && NoHandshakes(l.air - {m}) && m.to == x && m.at <= t0 + l.delay[!x]
    && InFlight(l, x, t0)
    && MarkBehind(l.ends[x], l.ends[!x]) && MarkBehind(l.ends[!x], l.ends[x])
    && Unconfirmed(l, !x) && Q(l, !x).next.value.seen == {}
    && m.frame.Handshake? && m.frame.msg == Msg2(Q(l, !x).next.value.stage.key)
    && Q(l, !x).next.value.stage.key.hs == Q(l, x).next.value.Hs() && t0 <= Q(l, !x).next.value.establishedAt
  }

  /** `x` switched to the new key and said so with `k`, which has not arrived. */
  predicate InSwitched(l: Link, x: bool, k: Wire)
    requires Shape(l)
  {
    && NoHandshakes(l.air)
    && MarkBehind(l.ends[x], l.ends[!x]) && MarkBehind(l.ends[!x], l.ends[x])
    && Q(l, x).next.None? && Q(l, x).previous.Some?
    && Ready(Q(l, x).current) && Q(l, x).current.value.initiator && Q(l, x).current.value.seen == {}
    && Unconfirmed(l, !x)
    && Linked(Q(l, x).current, Q(l, !x).next) && Linked(Q(l, !x).current, Prev(Q(l, x)))
    && k in l.air && k.to == !x && k.at == Q(l, x).previous.value.1
    && Q(l, x).current.value.establishedAt <= Q(l, !x).next.value.establishedAt
    && k.at < Q(l, x).current.value.establishedAt + HANDSHAKE_TIMEOUT_SECS
    && (Q(l, x).awaitingSince.Some? ==> k.at <= Q(l, x).awaitingSince.value)
    && Awaits(Q(l, !x).next, k.frame)
    && (forall w <- l.air :: w.to == !x ==> Awaits(Q(l, !x).current, w.frame) || Awaits(Q(l, !x).next, w.frame))
    && (forall w <- l.air :: w.to == x ==> Awaits(Prev(Q(l, x)), w.frame) && w.at <= k.at + l.delay[!x])
  }

  /** Our initiation waits in `next`, on an ephemeral no key in use has. */
  predicate InFlight(l: Link, x: bool, t0: nat)
    requires Shape(l)
  {
    var c, o := l.ends[x], l.ends[!x];
    && Q(l, x).NextInFlight() && Q(l, x).next.value.establishedAt == t0 <= l.clock
    && Q(l, x).next.value.seen == {}
    && var hs := Q(l, x).next.value.Hs();
    && hs == Transcript(c.uuid, c.id, o.id, c.pub, o.pub, hs.e) && Drawn(l, hs.e)
    && Ready(Q(l, x).current) && hs.e != Q(l, x).current.value.stage.key.hs.e
  }

  /** A ready answer waits in `next` for the initiator's first frame. */
  predicate Unconfirmed(l: Link, y: bool)
    requires Shape(l)
  {
    && Ready(Q(l, y).next) && !Q(l, y).next.value.initiator && Ready(Q(l, y).current)
    && Q(l, y).next.value.stage.key != Q(l, y).current.value.stage.key
    && Drawn(l, Q(l, y).next.value.stage.key.hs.e)
  }

  predicate Inv(l: Link, first: PairKey, ph: Phase) {
    Shape(l) && Common(l, first) && InPhase(l, ph)
  }

  // ---------- time passes ----------

  lemma TickCommon(l: Link, first: PairKey, now: nat)
    requires Shape(l) && Common(l, first) && Enabled(l, Tick(now))
    ensures var m := l.(clock := now); Shape(m) && Common(m, first)
  {
    var m := l.(clock := now);
    assert forall s :: Q(m, s) == Q(l, s);
    assert forall w <- l.air :: WireOk(l, w);
  }

  lemma TickKeeps(l: Link, first: PairKey, ph: Phase, now: nat)
    requires Inv(l, first, ph) && Enabled(l, Tick(now))
    ensures Inv(Step(l, Tick(now)), first, ph)
  {
    TickCommon(l, first, now);
    var m := Step(l, Tick(now));
    assert forall s :: Q(m, s) == Q(l, s);
  }

  // ---------- sealing ----------

  /** `d` is `c` with its current session toward `o` advanced by one sealed frame. */
  predicate SealedOne(c: Core, d: Core, o: NodeId, payload: Packet, now: nat) {
    && c.table.IsReady(o) && o in d.table.sessions
    && (d.table.sessions[o].awaitingSince == c.table.Of(o).awaitingSince ||
       d.table.sessions[o].awaitingSince == Some(now))
    && d == c.(table := c.table.With(o, d.table.sessions[o]))
    && d.table.sessions[o].current == Some(c.table.Of(o).current.value.Seal(payload).0)
    && d.table.sessions[o].next == c.table.Of(o).next && d.table.sessions[o].previous == c.table.Of(o).previous
  }

  function SealLink(l: Link, s: bool, payload: Packet, d: Core): Link
    requires Shape(l) && l.ends[s].table.IsReady(l.ends[!s].id)
  {
    var (_, n, ct) := Q(l, s).current.value.Seal(payload);
    l.(ends := l.ends[s := d], air := l.air + {Wire(Data(l.ends[s].id, l.ends[!s].id, n, ct), l.clock, !s)})
  }

  lemma SealCommon(l: Link, first: PairKey, s: bool, payload: Packet, d: Core)
    requires Shape(l) && Common(l, first) && SealedOne(l.ends[s], d, l.ends[!s].id, payload, l.clock)
    ensures Shape(SealLink(l, s, payload, d)) && Common(SealLink(l, s, payload, d), first)
  {
    var m := SealLink(l, s, payload, d);
    assert Q(m, !s) == Q(l, !s);
    assert SideOk(l, first, s) && SideOk(l, first, !s);
    assert SideOk(m, first, s) && SideOk(m, first, !s);
    assert KnowsPeer(l.ends[s], l.ends[!s]) && KnowsPeer(l.ends[!s], l.ends[s]);
    assert KnowsPeer(m.ends[s], m.ends[!s]) && KnowsPeer(m.ends[!s], m.ends[s]);
    forall w | w in m.air
      ensures WireOk(m, w)
    {
      if w in l.air {
        assert WireOk(l, w);
      }
    }
    forall w, v | w in m.air && v in m.air && Twins(w, v)
      ensures w == v
    {
      assert w in l.air ==> WireOk(l, w);
      assert v in l.air ==> WireOk(l, v);
    }
  }

  /** The new frame is awaited by whatever receives from the sealing session. */
  lemma SealedIsAwaited(s: Session, r: Option<Session>, payload: Packet, src: NodeId, dst: NodeId)
    requires Linked(Some(s), r)
    ensures var (t, n, ct) := s.Seal(payload); Awaits(r, Data(src, dst, n, ct)) && Linked(Some(t), r)
  {
  }

  lemma SealSteady(l: Link, first: PairKey, s: bool, payload: Packet, d: Core)
    requires Inv(l, first, Steady) && SealedOne(l.ends[s], d, l.ends[!s].id, payload, l.clock)
    ensures InSteady(SealLink(l, s, payload, d))
  {
    var m := SealLink(l, s, payload, d);
    assert Q(m, !s) == Q(l, !s);
    SealedIsAwaited(Q(l, s).current.value, Q(l, !s).current, payload, l.ends[s].id, l.ends[!s].id);
    assert forall w <- l.air :: Covered(Q(l, w.to), w, l.delay[w.to]) ==> Covered(Q(m, w.to), w, m.delay[w.to]);
  }

  /** The new frame, like all others, is awaited by the other side's current session. */
  lemma SealIntoCurrent(l: Link, first: PairKey, s: bool, payload: Packet, d: Core)
    requires Shape(l) && Common(l, first) && Together(l) && AllCurrent(l, s) && AllCurrent(l, !s)
    requires SealedOne(l.ends[s], d, l.ends[!s].id, payload, l.clock)
    ensures var m := SealLink(l, s, payload, d);
            Shape(m) && Q(m, !s) == Q(l, !s) && Together(m) && AllCurrent(m, s) && AllCurrent(m, !s)
  {
    SealedIsAwaited(Q(l, s).current.value, Q(l, !s).current, payload, l.ends[s].id, l.ends[!s].id);
  }

  lemma SealAskedOrAnswered(l: Link, first: PairKey, ph: Phase, s: bool, payload: Packet, d: Core)
    requires Inv(l, first, ph) && (ph.Asked? || ph.Answered?) &&
             SealedOne(l.ends[s], d, l.ends[!s].id, payload, l.clock)
    ensures InPhase(SealLink(l, s, payload, d), ph)
  {
    var m := SealLink(l, s, payload, d);
    SealIntoCurrent(l, first, s, payload, d);
    assert NoHandshakes(m.air - {ph.w});
  }

  lemma SealSwitched(l: Link, first: PairKey, ph: Phase, s: bool, payload: Packet, d: Core)
    requires Inv(l, first, ph) && ph.Switched? && SealedOne(l.ends[s], d, l.ends[!s].id, payload, l.clock)
    ensures InPhase(SealLink(l, s, payload, d), ph)
  {
    var m := SealLink(l, s, payload, d);
    var q := Q(l, s);
    assert Q(m, !s) == Q(l, !s);
    assert WireOk(l, ph.w);
    if s == ph.x {
      SealedIsAwaited(q.current.value, Q(l, !s).next, payload, l.ends[s].id, l.ends[!s].id);
    } else {
      SealedIsAwaited(q.current.value, Prev(Q(l, !s)), payload, l.ends[s].id, l.ends[!s].id);
    }
    forall w | w in m.air && w.to == !ph.x
      ensures Awaits(Q(m, !ph.x).current, w.frame) || Awaits(Q(m, !ph.x).next, w.frame)
    {
      if w in l.air {
        assert Awaits(Q(l, !ph.x).current, w.frame) || Awaits(Q(l, !ph.x).next, w.frame);
      }
    }
  }

  lemma SealKeeps(l: Link, first: PairKey, ph: Phase, s: bool, payload: Packet, d: Core)
    requires Inv(l, first, ph) && SealedOne(l.ends[s], d, l.ends[!s].id, payload, l.clock)
    ensures Inv(SealLink(l, s, payload, d), first, ph)
  {
    SealCommon(l, first, s, payload, d);
    if ph.Steady? {
      SealSteady(l, first, s, payload, d);
    } else if ph.Switched? {
      SealSwitched(l, first, ph, s, payload, d);
    } else {
      SealAskedOrAnswered(l, first, ph, s, payload, d);
    }
  }

  // ---------- sending ----------

  /** The core after a packet is sealed and noted, before any replacement is started. */
  function SentCore(c: Core, o: NodeId, pkt: Packet, now: nat): Core
    requires c.table.IsReady(o)
  {
    var (d, _) := c.SealTo(o, pkt);
    d.(table := d.table.NoteSent(o, now))
  }

  lemma SentIsSealedOne(c: Core, o: NodeId, pkt: Packet, now: nat)
    requires c.table.IsReady(o)
    ensures SealedOne(c, SentCore(c, o, pkt, now), o, pkt, now)
    ensures SentCore(c, o, pkt, now).table.Of(o).RekeyDue(now) <==>
            c.table.Of(o).(current := Some(c.table.Of(o).current.value.Seal([]).0)).NoteSent(now).RekeyDue(now)
  {
    var d := SentCore(c, o, pkt, now);
    assert d.table.sessions == c.table.sessions[o := d.table.sessions[o]];
  }

  lemma PlainSend(l: Link, first: PairKey, ph: Phase, s: bool, pkt: Packet, wall: Tai64n)
    requires Inv(l, first, ph) && !StartsRekey(l, s)
    ensures Inv(Step(l, Send(s, pkt, wall)), first, ph)
  {
    var c, o := l.ends[s], l.ends[!s].id;
    assert SideOk(l, first, s);
    SentIsSealedOne(c, o, pkt, l.clock);
    var d := SentCore(c, o, pkt, l.clock);
    SealKeeps(l, first, ph, s, pkt, d);
    var (_, fs) := c.Outbound(o, pkt, PubkeyOf(c.peers, o), l.clock, wall);
    assert fs == [c.SealTo(o, pkt).1];
    assert Launch(fs, l.clock, !s) == {Wire(fs[0], l.clock, !s)};
  }

  /** Unless by the number of frames, a session is due only once every straggler has arrived. */
  lemma DueIsOnKey(l: Link, first: PairKey, s: bool)
    requires Inv(l, first, Steady) && StartsRekey(l, s) && !Spent(Q(l, s))
    ensures AirOnKey(l, s)
  {
    var q := Q(l, s);
    forall w | w in l.air
      ensures OnKey(w.frame, q.current.value.stage.key)
    {
      assert WireOk(l, w) && Recent(l, s);
      DueIsLate(q, l.clock, w);
    }
  }

  lemma DueIsLate(q: PeerSessions, now: nat, w: Wire)
    requires Ready(q.current) && !Spent(q)
    requires q.(current := Some(q.current.value.Seal([]).0)).NoteSent(now).RekeyDue(now)
    ensures Early(q, w) ==> w.at + HANDSHAKE_TIMEOUT_SECS <= now
  {
  }

  /** If every frame in the air is on the key in use, the current sessions await them all. */
  lemma OnKeyIsCurrent(l: Link, first: PairKey, s: bool, k: bool)
    requires Inv(l, first, Steady) && AirOnKey(l, k)
    ensures AllCurrent(l, s)
  {
    assert SideOk(l, first, s) && SideOk(l, first, k);
    forall w | w in l.air && w.to == s
      ensures Awaits(Q(l, s).current, w.frame)
    {
      assert Covered(Q(l, w.to), w, l.delay[w.to]);
    }
  }

  /** The link once `s` has also launched msg1. */
  function AskLink(l: Link, s: bool, ts: Tai64n): Link
    requires Shape(l)
  {
    var c, o := l.ends[s], l.ends[!s];
    var i := Initiate(c.uuid, c.id, c.pub, o.id, o.pub, c.Fresh(), l.clock);
    l.(ends := l.ends[s := c.DrawEph().(table := c.table.Rekeying(o.id, i), lastTs := ts)],
       air := l.air + {Wire(Handshake(c.id, o.id, Msg1(i.Hs(), ts)), l.clock, !s)})
  }

  lemma AskCommon(l: Link, first: PairKey, s: bool, ts: Tai64n)
    requires Inv(l, first, Steady)
    ensures Shape(AskLink(l, s, ts)) && Common(AskLink(l, s, ts), first)
  {
    var m := AskLink(l, s, ts);
    assert Q(m, !s) == Q(l, !s);
    assert SideOk(l, first, s) && SideOk(l, first, !s);
    assert SideOk(m, first, s) && SideOk(m, first, !s);
    assert KnowsPeer(l.ends[s], l.ends[!s]) && KnowsPeer(l.ends[!s], l.ends[s]);
    assert KnowsPeer(m.ends[s], m.ends[!s]) && KnowsPeer(m.ends[!s], m.ends[s]);
    forall w | w in m.air
      ensures WireOk(m, w)
    {
      assert w in l.air ==> WireOk(l, w);
    }
    assert Distinct(l.air);
  }

  lemma AskKeeps(l: Link, first: PairKey, s: bool, ts: Tai64n) returns (ph: Phase)
    requires Inv(l, first, Steady) && Ready(Q(l, s).current) && AirOnKey(l, s) && l.ends[s].lastTs.Before(ts)
    ensures Inv(AskLink(l, s, ts), first, ph)
  {
    var m := AskLink(l, s, ts);
    AskCommon(l, first, s, ts);
    OnKeyIsCurrent(l, first, s, s);
    OnKeyIsCurrent(l, first, !s, s);
    var i := Q(m, s).next.value;
    var w := Wire(Handshake(l.ends[s].id, l.ends[!s].id, Msg1(i.Hs(), ts)), l.clock, !s);
    assert SideOk(l, first, s);
    assert Q(m, !s) == Q(l, !s);
    assert InFlight(m, s, w.at);
    assert MarkBehind(l.ends[!s], l.ends[s]);
    assert m.ends[!s].table.AcceptsTs(m.ends[s].id, m.ends[s].pub, ts);
    assert AllCurrent(m, s) && AllCurrent(m, !s);
    ph := Asked(s, w);
  }

  /** The new frame is on the key in use too. */
  lemma SealStaysOnKey(l: Link, s: bool, payload: Packet, d: Core)
    requires Shape(l) && Ready(Q(l, s).current) && AirOnKey(l, s)
    requires SealedOne(l.ends[s], d, l.ends[!s].id, payload, l.clock)
    ensures var m := SealLink(l, s, payload, d);
            Shape(m) && l.ends[!s].id == m.ends[!s].id && Ready(Q(m, s).current) && AirOnKey(m, s)
  {
  }

  lemma AloneIsSteady(l: Link, first: PairKey, ph: Phase)
    requires Inv(l, first, ph) && Alone(l)
    ensures ph == Steady
  {
  }

  /** Outbound on a session due for replacement: the sealed packet, then msg1. */
  lemma OutboundStarts(c: Core, o: Core, pkt: Packet, now: nat, wall: Tai64n)
    requires c.table.IsReady(o.id) && PubkeyOf(c.peers, o.id) == Some(o.pub)
    requires SentCore(c, o.id, pkt, now).table.Of(o.id).RekeyDue(now)
    ensures var d := SentCore(c, o.id, pkt, now);
            var i := Initiate(d.uuid, d.id, d.pub, o.id, o.pub, d.Fresh(), now);
            c.Outbound(o.id, pkt, Some(o.pub), now, wall) ==
            (d.DrawEph().(table := d.table.Rekeying(o.id, i), lastTs := c.NextTs(wall)),
             [c.SealTo(o.id, pkt).1, Handshake(d.id, o.id, Msg1(i.Hs(), c.NextTs(wall)))])
  {
    var d := SentCore(c, o.id, pkt, now);
    var (e, fs) := d.StartRekey(o.id, Some(o.pub), now, wall);
    assert [c.SealTo(o.id, pkt).1] + fs == [c.SealTo(o.id, pkt).1, fs[0]];
  }

  lemma StartingStep(l: Link, s: bool, pkt: Packet, wall: Tai64n)
    requires Shape(l) && StartsRekey(l, s) && KnowsPeer(l.ends[s], l.ends[!s])
    ensures var c, o := l.ends[s], l.ends[!s].id;
            var d := SentCore(c, o, pkt, l.clock);
            && SealedOne(c, d, o, pkt, l.clock)
            && Step(l, Send(s, pkt, wall)) == AskLink(SealLink(l, s, pkt, d), s, c.NextTs(wall))
  {
    var c, o := l.ends[s], l.ends[!s];
    SentIsSealedOne(c, o.id, pkt, l.clock);
    OutboundStarts(c, o, pkt, l.clock, wall);
    var m := AskLink(SealLink(l, s, pkt, SentCore(c, o.id, pkt, l.clock)), s, c.NextTs(wall));
    var (e, fs) := c.Outbound(o.id, pkt, Some(o.pub), l.clock, wall);
    assert Launch(fs, l.clock, !s) == {Wire(fs[0], l.clock, !s), Wire(fs[1], l.clock, !s)};
    assert l.air + Launch(fs, l.clock, !s) == m.air;
    assert l.ends[s := e] == m.ends;
  }

  lemma StartingSend(l: Link, first: PairKey, ph: Phase, s: bool, pkt: Packet, wall: Tai64n) returns (ph2: Phase)
    requires Inv(l, first, ph) && Enabled(l, Send(s, pkt, wall)) && StartsRekey(l, s)
    ensures Inv(Step(l, Send(s, pkt, wall)), first, ph2)
  {
    var c, o := l.ends[s], l.ends[!s].id;
    assert KnowsPeer(c, l.ends[!s]);
    StartingStep(l, s, pkt, wall);
    var d := SentCore(c, o, pkt, l.clock);
    AloneIsSteady(l, first, ph);
    if !Spent(Q(l, s)) { DueIsOnKey(l, first, s); }
    SealKeeps(l, first, ph, s, pkt, d);
    SealStaysOnKey(l, s, pkt, d);
    ph2 := AskKeeps(SealLink(l, s, pkt, d), first, s, c.NextTs(wall));
  }

  // ---------- a data frame arrives ----------

  /** An awaited frame that kept within the window opens, and its session commits the counter. */
  lemma AwaitedOpens(l: Link, s: Option<Session>, f: Frame)
    requires Awaits(s, f) && SeenArrived(l.delivered, s) && InWindow(l, f)
    ensures s.value.Unseal(f.ctr, f.ct) == Ok((s.value.(seen := s.value.seen + {f.ctr}), f.ct.payload))
  {
    forall c | c in s.value.seen
      ensures c < f.ctr + REPLAY_WINDOW
    {
      var g :| g in l.delivered && g.Data? && g.ct.Sealed? && g.ct.key == s.value.stage.key
               && g.ct.byInitiator == !s.value.initiator && g.ctr == c;
    }
  }

  /** A frame nobody here awaits under `s` does not open `s`. */
  lemma NotAwaitedFails(s: Session, f: Frame)
    requires f.Data? && !Awaits(Some(s), f)
    ensures s.Unseal(f.ctr, f.ct).Err?
  {
  }

  datatype Slot = Current | Next | Previous

  function At(q: PeerSessions, i: Slot): Option<Session> {
    match i case Current => q.current case Next => q.next case Previous => Prev(q)
  }

  function Committed(s: Option<Session>, ctr: nat): Option<Session> {
    if s.Some? then Some(s.value.(seen := s.value.seen + {ctr})) else None
  }

  /** `q` with the counter committed in the slot that opened the frame. */
  function Opened(q: PeerSessions, i: Slot, ctr: nat, now: nat): PeerSessions {
    (match i
     case Current => q.(current := Committed(q.current, ctr))
     case Next => q.(next := Committed(q.next, ctr)).Promote(now)
     case Previous => q.(previous := if q.previous.Some? then Some((Committed(Prev(q), ctr).value, q.previous.value.1))
       else None)
    ).(awaitingSince := None)
  }

  /** A covered frame opens in the first slot that awaits it. */
  lemma CoveredOpens(l: Link, first: PairKey, w: Wire) returns (i: Slot)
    requires Shape(l) && Common(l, first) && w in l.air && w.frame.Data? && InWindow(l, w.frame)
    requires Covered(Q(l, w.to), w, l.delay[w.to])
    ensures Awaits(At(Q(l, w.to), i), w.frame)
    ensures i.Next? ==> !Awaits(Q(l, w.to).current, w.frame)
    ensures i.Previous? ==> !Awaits(Q(l, w.to).current, w.frame) && !Awaits(Q(l, w.to).next, w.frame)
    ensures Q(l, w.to).Unseal(w.frame.ctr, w.frame.ct, l.clock) ==
            Ok((Opened(Q(l, w.to), i, w.frame.ctr, l.clock), w.frame.ct.payload))
  {
    var q := Q(l, w.to);
    assert SideOk(l, first, w.to) && WireOk(l, w);
    if Awaits(q.current, w.frame) {
      AwaitedOpens(l, q.current, w.frame);
      i := Current;
    } else {
      NotAwaitedFails(q.current.value, w.frame);
      if Awaits(q.next, w.frame) {
        AwaitedOpens(l, q.next, w.frame);
        i := Next;
      } else {
        if q.next.Some? { NotAwaitedFails(q.next.value, w.frame); }
        AwaitedOpens(l, Prev(q), w.frame);
        i := Previous;
      }
    }
  }

  /** The link once the frame has been opened, before any keepalive goes out. */
  function OpenLink(l: Link, w: Wire, r: PeerSessions): Link
    requires Shape(l)
  {
    l.(ends := l.ends[w.to := l.ends[w.to].WithPeer(l.ends[!w.to].id, r)],
       air := l.air - {w}, delivered := l.delivered + {w.frame})
  }

  /** Frames awaited elsewhere stay awaited when another counter is committed. */
  lemma StillAwaited(l: Link, first: PairKey, w: Wire, v: Wire, s: Option<Session>)
    requires Shape(l) && Common(l, first) && w in l.air && v in l.air && w != v && w.to == v.to
    requires Awaits(s, w.frame) && Awaits(s, v.frame)
    ensures Awaits(Committed(s, w.frame.ctr), v.frame)
  {
    assert WireOk(l, w) && WireOk(l, v);
    assert !Twins(w, v);
  }

  lemma CommittedArrived(l: Link, s: Option<Session>, f: Frame)
    requires SeenArrived(l.delivered, s)
    ensures SeenArrived(l.delivered + {f}, s)
    ensures Awaits(s, f) ==> SeenArrived(l.delivered + {f}, Committed(s, f.ctr))
  {
  }

  /** Opening in `current` or `previous` keeps what holds in every phase. */
  lemma OpenInPlace(l: Link, first: PairKey, w: Wire, i: Slot)
    requires Shape(l) && Common(l, first) && w in l.air && !i.Next? && Awaits(At(Q(l, w.to), i), w.frame)
    ensures var m := OpenLink(l, w, Opened(Q(l, w.to), i, w.frame.ctr, l.clock)); Shape(m) && Common(m, first)
  {
    var q := Q(l, w.to);
    var r := Opened(q, i, w.frame.ctr, l.clock);
    var m := OpenLink(l, w, r);
    assert Q(m, !w.to) == Q(l, !w.to) && Q(m, w.to) == r;
    assert SideOk(l, first, w.to) && SideOk(l, first, !w.to);
    CommittedArrived(l, q.current, w.frame);
    CommittedArrived(l, q.next, w.frame);
    CommittedArrived(l, Prev(q), w.frame);
    CommittedArrived(l, Q(l, !w.to).current, w.frame);
    CommittedArrived(l, Q(l, !w.to).next, w.frame);
    CommittedArrived(l, Prev(Q(l, !w.to)), w.frame);
    assert SideOk(m, first, w.to) && SideOk(m, first, !w.to);
    OpenAcquainted(l, w, r);
    forall v | v in m.air
      ensures WireOk(m, v)
    {
      assert WireOk(l, v);
    }
  }

  lemma OpenAcquainted(l: Link, w: Wire, r: PeerSessions)
    requires Shape(l) && Acquainted(l)
    ensures Shape(OpenLink(l, w, r)) && Acquainted(OpenLink(l, w, r))
  {
    var m := OpenLink(l, w, r);
    assert KnowsPeer(l.ends[w.to], l.ends[!w.to]) && KnowsPeer(l.ends[!w.to], l.ends[w.to]);
    assert KnowsPeer(m.ends[w.to], m.ends[!w.to]) && KnowsPeer(m.ends[!w.to], m.ends[w.to]);
  }

  lemma LinkSurvives(s: Option<Session>, r: Option<Session>, ctr: nat)
    requires Linked(s, r) && ctr < s.value.stage.sendNonce
    ensures Linked(s, Committed(r, ctr))
  {
  }

  lemma OpenSteady(l: Link, first: PairKey, w: Wire, i: Slot)
    requires Inv(l, first, Steady) && w in l.air && Awaits(At(Q(l, w.to), i), w.frame)
    requires i.Previous? ==> !Awaits(Q(l, w.to).current, w.frame)
    ensures Inv(OpenLink(l, w, Opened(Q(l, w.to), i, w.frame.ctr, l.clock)), first, Steady)
  {
    var q := Q(l, w.to);
    var r := Opened(q, i, w.frame.ctr, l.clock);
    var m := OpenLink(l, w, r);
    OpenInPlace(l, first, w, i);
    assert Q(m, !w.to) == Q(l, !w.to) && Q(m, w.to) == r;
    assert WireOk(l, w);
    if i.Current? {
      LinkSurvives(Q(l, !w.to).current, q.current, w.frame.ctr);
    }
    assert Linked(Q(m, !w.to).current, Q(m, w.to).current) && Linked(Q(m, w.to).current, Q(m, !w.to).current);
    forall v | v in m.air
      ensures Covered(Q(m, v.to), v, m.delay[v.to])
    {
      assert Covered(Q(l, v.to), v, l.delay[v.to]);
      if v.to == w.to && Awaits(At(q, i), v.frame) {
        StillAwaited(l, first, w, v, At(q, i));
      }
    }
  }

  lemma OpenAskedOrAnswered(l: Link, first: PairKey, ph: Phase, w: Wire)
    requires Inv(l, first, ph) && (ph.Asked? || ph.Answered?) && w in l.air && w.frame.Data?
    requires Awaits(Q(l, w.to).current, w.frame)
    ensures Inv(OpenLink(l, w, Opened(Q(l, w.to), Current, w.frame.ctr, l.clock)), first, ph)
  {
    var q := Q(l, w.to);
    var r := Opened(q, Current, w.frame.ctr, l.clock);
    var m := OpenLink(l, w, r);
    OpenInPlace(l, first, w, Current);
    assert Q(m, !w.to) == Q(l, !w.to) && Q(m, w.to) == r;
    assert WireOk(l, w);
    LinkSurvives(Q(l, !w.to).current, q.current, w.frame.ctr);
    assert AllCurrent(l, w.to) && AllCurrent(l, !w.to);
    forall v | v in m.air && v.to == w.to && v.frame.Data?
      ensures Awaits(Q(m, w.to).current, v.frame)
    {
      StillAwaited(l, first, w, v, q.current);
    }
    assert AllCurrent(m, w.to) && AllCurrent(m, !w.to);
    assert m.ends[w.to].table.marks == l.ends[w.to].table.marks;
    assert NoHandshakes(m.air - {ph.w});
  }

  /** While switched, a frame on the old key opens on whichever side it arrives. */
  lemma OpenSwitchedOld(l: Link, first: PairKey, ph: Phase, w: Wire, i: Slot)
    requires Inv(l, first, ph) && ph.Switched? && w in l.air && Awaits(At(Q(l, w.to), i), w.frame)
    requires i == if w.to == ph.x then Previous else Current
    ensures Inv(OpenLink(l, w, Opened(Q(l, w.to), i, w.frame.ctr, l.clock)), first, ph)
  {
    var q := Q(l, w.to);
    var r := Opened(q, i, w.frame.ctr, l.clock);
    var m := OpenLink(l, w, r);
    OpenInPlace(l, first, w, i);
    assert Q(m, !w.to) == Q(l, !w.to) && Q(m, w.to) == r;
    assert WireOk(l, w);
    if w.to == ph.x {
      LinkSurvives(Q(l, !w.to).current, Prev(q), w.frame.ctr);
    }
    forall v | v in m.air && v.to == w.to && Awaits(At(q, i), v.frame)
      ensures Awaits(At(r, i), v.frame)
    {
      StillAwaited(l, first, w, v, At(q, i));
    }
    assert m.ends[w.to].table.marks == l.ends[w.to].table.marks;
  }

  /** A first frame under the new key makes the answering side switch too. */
  lemma ConfirmCommon(l: Link, first: PairKey, ph: Phase, w: Wire)
    requires Inv(l, first, ph) && ph.Switched? && w in l.air && w.to == !ph.x && Awaits(Q(l, w.to).next, w.frame)
    ensures var m := OpenLink(l, w, Opened(Q(l, w.to), Next, w.frame.ctr, l.clock)); Shape(m) && Common(m, first)
  {
    var q := Q(l, w.to);
    var r := Opened(q, Next, w.frame.ctr, l.clock);
    var m := OpenLink(l, w, r);
    assert Q(m, !w.to) == Q(l, !w.to) && Q(m, w.to) == r;
    assert SideOk(l, first, w.to) && SideOk(l, first, !w.to);
    CommittedArrived(l, q.current, w.frame);
    CommittedArrived(l, q.next, w.frame);
    CommittedArrived(l, Q(l, !w.to).current, w.frame);
    CommittedArrived(l, Q(l, !w.to).next, w.frame);
    CommittedArrived(l, Prev(Q(l, !w.to)), w.frame);
    assert OnKey(w.frame, r.current.value.stage.key) && w.frame.ct.byInitiator && w.frame in m.delivered;
    assert Confirmed(m, first, r.current);
    assert SideOk(m, first, w.to);
    assert SideOk(m, first, !w.to);
    OpenAcquainted(l, w, r);
    forall v | v in m.air
      ensures WireOk(m, v)
    {
      assert WireOk(l, v);
    }
  }

  lemma ConfirmCovers(l: Link, first: PairKey, ph: Phase, w: Wire)
    requires Inv(l, first, ph) && ph.Switched? && w in l.air && w.to == !ph.x && Awaits(Q(l, w.to).next, w.frame)
    ensures var m := OpenLink(l, w, Opened(Q(l, w.to), Next, w.frame.ctr, l.clock));
            && Shape(m) && Recent(m, w.to) && Recent(m, !w.to)
            && forall v <- m.air :: Covered(Q(m, v.to), v, m.delay[v.to])
  {
    var q := Q(l, w.to);
    var r := Opened(q, Next, w.frame.ctr, l.clock);
    var m := OpenLink(l, w, r);
    assert Q(m, !w.to) == Q(l, !w.to) && Q(m, w.to) == r;
    assert WireOk(l, ph.w);
    forall v | v in m.air
      ensures Covered(Q(m, v.to), v, m.delay[v.to]) && Early(Q(m, w.to), v) && Early(Q(m, !w.to), v)
    {
      assert WireOk(l, v);
      if v.to == w.to && Awaits(q.next, v.frame) {
        StillAwaited(l, first, w, v, q.next);
      }
    }
  }

  lemma ConfirmKeeps(l: Link, first: PairKey, ph: Phase, w: Wire)
    requires Inv(l, first, ph) && ph.Switched? && w in l.air && w.to == !ph.x && Awaits(Q(l, w.to).next, w.frame)
    ensures Inv(OpenLink(l, w, Opened(Q(l, w.to), Next, w.frame.ctr, l.clock)), first, Steady)
  {
    var q := Q(l, w.to);
    var r := Opened(q, Next, w.frame.ctr, l.clock);
    var m := OpenLink(l, w, r);
    ConfirmCommon(l, first, ph, w);
    ConfirmCovers(l, first, ph, w);
    assert Q(m, !w.to) == Q(l, !w.to) && Q(m, w.to) == r;
    assert WireOk(l, w);
    LinkSurvives(Q(l, !w.to).current, q.next, w.frame.ctr);
    assert Linked(Q(m, !w.to).current, Q(m, w.to).current);
    assert m.ends[w.to].table.marks == l.ends[w.to].table.marks;
    assert Linked(Q(m, w.to).current, Q(m, !w.to).current);
  }

  /** Whatever the phase, a data frame that arrives opens, and the phase moves as it should. */
  lemma DataOpens(l: Link, first: PairKey, ph: Phase, w: Wire) returns (r: PeerSessions, ph2: Phase)
    requires Inv(l, first, ph) && w in l.air && w.frame.Data? && InWindow(l, w.frame)
    ensures Q(l, w.to).Unseal(w.frame.ctr, w.frame.ct, l.clock) == Ok((r, w.frame.ct.payload))
    ensures Inv(OpenLink(l, w, r), first, ph2)
  {
    assert WireOk(l, w);
    if ph.Asked? || ph.Answered? {
      assert AllCurrent(l, w.to);
    }
    if ph.Switched? {
      assert WireOk(l, ph.w);
    }
    assert Covered(Q(l, w.to), w, l.delay[w.to]);
    var i := CoveredOpens(l, first, w);
    r := Opened(Q(l, w.to), i, w.frame.ctr, l.clock);
    ph2 := ph;
    match ph {
      case Steady => OpenSteady(l, first, w, i);
      case Asked(_, _) => OpenAskedOrAnswered(l, first, ph, w);
      case Answered(_, _, _) => OpenAskedOrAnswered(l, first, ph, w);
      case Switched(x, _) =>
        assert SideOk(l, first, w.to);
        if i.Next? {
          ConfirmKeeps(l, first, ph, w);
          ph2 := Steady;
        } else {
          OpenSwitchedOld(l, first, ph, w, i);
        }
    }
  }

  /** The keepalive answer, when one is due, is one more sealed frame. */
  lemma KeepaliveIsSealedOne(c: Core, o: NodeId, r: PeerSessions, v: Packet, now: nat)
    requires v != [] && r.KeepaliveDue(now)
    ensures var c1 := c.WithPeer(o, r);
            var (d, fs, _) := c.Heard(o, r, v, now);
            && SealedOne(c1, d, o, [], now)
            && var (_, n, ct) := r.current.value.Seal([]);
            fs == [Data(c.id, o, n, ct)]
  {
    var c1 := c.WithPeer(o, r);
    var (d, _, _) := c.Heard(o, r, v, now);
    assert d.table.sessions == c1.table.sessions[o := d.table.sessions[o]];
  }

  lemma DataStep(l: Link, w: Wire, r: PeerSessions, v: Packet)
    requires Shape(l) && w.frame.Data? && l.ends[!w.to].id in l.ends[w.to].table.sessions
    requires Q(l, w.to).Unseal(w.frame.ctr, w.frame.ct, l.clock) == Ok((r, v))
    ensures Step(l, Arrive(w)) ==
            var (d, fs, _) := l.ends[w.to].Heard(l.ends[!w.to].id, r, v, l.clock);
            var m := OpenLink(l, w, r);
            m.(ends := m.ends[w.to := d], air := m.air + Launch(fs, l.clock, !w.to))
  {
    var (d, fs, _) := l.ends[w.to].Heard(l.ends[!w.to].id, r, v, l.clock);
    assert l.ends[w.to := d] == OpenLink(l, w, r).ends[w.to := d];
  }

  lemma QuietStep(l: Link, w: Wire, r: PeerSessions, v: Packet)
    requires Shape(l) && !(v != [] && r.KeepaliveDue(l.clock))
    ensures var (d, fs, _) := l.ends[w.to].Heard(l.ends[!w.to].id, r, v, l.clock);
            var m := OpenLink(l, w, r);
            m.(ends := m.ends[w.to := d], air := m.air + Launch(fs, l.clock, !w.to)) == m
  {
    var m := OpenLink(l, w, r);
    assert Launch([], l.clock, !w.to) == {};
    assert m.ends[w.to := m.ends[w.to]] == m.ends;
  }

  lemma KeepaliveStep(l: Link, w: Wire, r: PeerSessions, v: Packet)
    requires Shape(l) && v != [] && r.KeepaliveDue(l.clock)
    ensures var (d, fs, _) := l.ends[w.to].Heard(l.ends[!w.to].id, r, v, l.clock);
            var m := OpenLink(l, w, r);
            && Shape(m) && SealedOne(m.ends[w.to], d, m.ends[!w.to].id, [], l.clock)
            && m.(ends := m.ends[w.to := d], air := m.air + Launch(fs, l.clock, !w.to)) == SealLink(m, w.to, [], d)
  {
    var o := l.ends[!w.to].id;
    KeepaliveIsSealedOne(l.ends[w.to], o, r, v, l.clock);
    var (d, fs, _) := l.ends[w.to].Heard(o, r, v, l.clock);
    var m := OpenLink(l, w, r);
    assert Q(m, w.to) == r;
    assert Launch(fs, l.clock, !w.to) == {Wire(fs[0], l.clock, !w.to)};
  }

  lemma DataArrives(l: Link, first: PairKey, ph: Phase, w: Wire) returns (ph2: Phase)
    requires Inv(l, first, ph) && Enabled(l, Arrive(w)) && w.frame.Data?
    ensures Inv(Step(l, Arrive(w)), first, ph2)
  {
    var r;
    r, ph2 := DataOpens(l, first, ph, w);
    assert KnowsPeer(l.ends[w.to], l.ends[!w.to]);
    var v := w.frame.ct.payload;
    DataStep(l, w, r, v);
    if v != [] && r.KeepaliveDue(l.clock) {
      KeepaliveStep(l, w, r, v);
      SealKeeps(OpenLink(l, w, r), first, ph2, w.to, [], l.ends[w.to].Heard(l.ends[!w.to].id, r, v, l.clock).0);
    } else {
      QuietStep(l, w, r, v);
    }
  }

  // ---------- msg1 arrives ----------

  lemma NothingToFlush(c: Core, o: NodeId, now: nat)
    requires c.table.Queued(o) == []
    ensures c.FlushPending(o, now).1 == []
    ensures c.FlushPending(o, now).0 == if c.table.IsReady(o) then c.(table := c.table.DropPending(o)) else c
  {
  }

  /** The answering side once it has installed `s` and noted the timestamp. */
  function AnsweredCore(c: Core, o: Core, s: Session, ts: Tai64n): Core {
    var t := c.table.NoteTs(o.id, o.pub, ts).With(o.id, c.table.Of(o.id).(next := Some(s), awaitingSince := None));
    c.DrawEph().(table := t.DropPending(o.id))
  }

  /** The link once msg1 `w` from `x` was answered. */
  function AnswerLink(l: Link, x: bool, w: Wire): Link
    requires Shape(l) && w.frame.Handshake? && w.frame.msg.Msg1?
  {
    var c, o := l.ends[!x], l.ends[x];
    var s := Respond(w.frame.msg, o.id, c.Fresh(), l.clock);
    l.(ends := l.ends[!x := AnsweredCore(c, o, s, o.lastTs)],
       air := l.air - {w} + {Wire(Handshake(c.id, o.id, Msg2(s.stage.key)), l.clock, x)})
  }

  lemma MsgOneStep(l: Link, first: PairKey, x: bool, w: Wire)
    requires Inv(l, first, Asked(x, w))
    ensures Step(l, Arrive(w)) == AnswerLink(l, x, w)
  {
    var c, o := l.ends[!x], l.ends[x];
    assert KnowsPeer(c, o) && SideOk(l, first, !x);
    var msg := w.frame.msg;
    var s := Respond(msg, o.id, c.Fresh(), l.clock);
    assert IsInitiation(c.uuid, c.id, c.pub, o.id, msg);
    var (d, fs) := c.OnHandshake(o.id, msg, Some(o.pub), l.clock);
    assert fs == [Handshake(c.id, o.id, Msg2(s.stage.key))];
    assert d.table.Queued(o.id) == [];
    NothingToFlush(d, o.id, l.clock);
    assert Launch(fs + [], l.clock, x) == {Wire(fs[0], l.clock, x)};
  }

  lemma MsgOneSides(l: Link, first: PairKey, x: bool, w: Wire)
    requires Inv(l, first, Asked(x, w))
    ensures var m := AnswerLink(l, x, w);
            && Shape(m) && Q(m, x) == Q(l, x) && Q(m, !x).current == Q(l, !x).current
            && SideOk(m, first, x) && SideOk(m, first, !x)
  {
    var m := AnswerLink(l, x, w);
    assert Q(m, x) == Q(l, x);
    assert SideOk(l, first, x) && SideOk(l, first, !x);
  }

  lemma MsgOneCommon(l: Link, first: PairKey, x: bool, w: Wire)
    requires Inv(l, first, Asked(x, w))
    ensures Shape(AnswerLink(l, x, w)) && Common(AnswerLink(l, x, w), first)
  {
    var m := AnswerLink(l, x, w);
    MsgOneSides(l, first, x, w);
    assert KnowsPeer(l.ends[x], l.ends[!x]) && KnowsPeer(l.ends[!x], l.ends[x]);
    assert KnowsPeer(m.ends[x], m.ends[!x]) && KnowsPeer(m.ends[!x], m.ends[x]);
    forall v | v in m.air
      ensures WireOk(m, v)
    {
      assert v in l.air ==> WireOk(l, v);
    }
    assert Distinct(l.air);
  }

  lemma MsgOneArrives(l: Link, first: PairKey, x: bool, w: Wire) returns (ph2: Phase)
    requires Inv(l, first, Asked(x, w))
    ensures Inv(AnswerLink(l, x, w), first, ph2)
  {
    MsgOneCommon(l, first, x, w);
    var m := AnswerLink(l, x, w);
    var c, o := l.ends[!x], l.ends[x];
    var k := PairKey(w.frame.msg.hs, c.Fresh());
    assert WireOk(l, w) && SideOk(l, first, x) && SideOk(l, first, !x);
    assert Q(m, x) == Q(l, x) && Q(m, !x).next.value.stage.key == k;
    assert AllCurrent(l, x) && AllCurrent(l, !x);
    assert AllCurrent(m, x) && AllCurrent(m, !x);
    assert InFlight(l, x, w.at) && InFlight(m, x, w.at);
    assert Q(l, !x).current.value.stage.key == Q(l, x).current.value.stage.key;
    assert Unconfirmed(m, !x);
    assert NoHandshakes(l.air - {w});
    ph2 := Answered(x, Wire(Handshake(c.id, o.id, Msg2(k)), l.clock, x), w.at);
    assert NoHandshakes(m.air - {ph2.w});
  }

  // ---------- msg2 arrives ----------

  /** What `x` holds once it has switched and sealed its keepalive. */
  function SwitchedSlots(q: PeerSessions, k: PairKey, now: nat): PeerSessions
    requires Ready(q.current) && q.next.Some?
  {
    PeerSessions(
      Some(q.next.value.(stage := Transport(k, 1), messages := q.next.value.messages + 1)),
      None, Some((q.current.value, now)), Some(now), now)
  }

  /** The link once `x` got its msg2 `w`. */
  function SwitchLink(l: Link, x: bool, w: Wire): Link
    requires Shape(l) && w.frame.Handshake? && w.frame.msg.Msg2? && Ready(Q(l, x).current) && Q(l, x).next.Some?
  {
    var c, o := l.ends[x], l.ends[!x];
    var k := w.frame.msg.key;
    l.(ends := l.ends[x := c.(table := c.table.With(o.id, SwitchedSlots(Q(l, x), k, l.clock)).DropPending(o.id))],
       air := l.air - {w} + {Wire(Data(c.id, o.id, 0, Sealed(k, true, 0, [])), l.clock, !x)})
  }

  /** The switch inside one core: finish, promote, say so with a keepalive. */
  lemma SwitchCore(c: Core, o: NodeId, p: PeerSessions, msg: HandshakeMsg, pk: Option<StaticKey>, now: nat)
    requires o in c.table.sessions && c.table.sessions[o] == p && c.table.Queued(o) == []
    requires msg.Msg2? && Ready(p.current) && p.NextInFlight() && p.next.value.IsReply(msg)
    ensures var (d, fs) := c.OnHandshake(o, msg, pk, now);
            && d == c.(table := c.table.With(o, SwitchedSlots(p, msg.key, now)).DropPending(o))
            && fs == [Data(c.id, o, 0, Sealed(msg.key, true, 0, []))]
  {
    var q := p.(next := Some(p.next.value.Finish(msg))).Promote(now);
    var c1 := c.WithPeer(o, q);
    var (c2, f) := c1.SealTo(o, []);
    var c3 := c2.(table := c2.table.NoteSent(o, now));
    assert c3.table.sessions == c.table.sessions[o := SwitchedSlots(p, msg.key, now)];
    NothingToFlush(c3, o, now);
  }

  lemma MsgTwoStep(l: Link, first: PairKey, x: bool, w: Wire, t0: nat)
    requires Inv(l, first, Answered(x, w, t0))
    ensures Step(l, Arrive(w)) == SwitchLink(l, x, w)
  {
    var c, o := l.ends[x], l.ends[!x];
    assert KnowsPeer(c, o) && SideOk(l, first, x);
    SwitchCore(c, o.id, Q(l, x), w.frame.msg, Some(o.pub), l.clock);
    var (d, fs) := c.OnHandshake(o.id, w.frame.msg, Some(o.pub), l.clock);
    NothingToFlush(d, o.id, l.clock);
    assert d.table.pending - {o.id} == d.table.pending;
    assert Launch(fs + [], l.clock, !x) == {Wire(fs[0], l.clock, !x)};
  }

  lemma MsgTwoSides(l: Link, first: PairKey, x: bool, w: Wire, t0: nat)
    requires Inv(l, first, Answered(x, w, t0))
    ensures var m := SwitchLink(l, x, w);
            && Shape(m) && Q(m, !x) == Q(l, !x) && Q(m, x) == SwitchedSlots(Q(l, x), w.frame.msg.key, l.clock)
            && SideOk(m, first, x) && SideOk(m, first, !x)
  {
    assert SideOk(l, first, x) && SideOk(l, first, !x);
  }

  lemma MsgTwoCommon(l: Link, first: PairKey, x: bool, w: Wire, t0: nat)
    requires Inv(l, first, Answered(x, w, t0))
    ensures Shape(SwitchLink(l, x, w)) && Common(SwitchLink(l, x, w), first)
  {
    var m := SwitchLink(l, x, w);
    MsgTwoSides(l, first, x, w, t0);
    assert KnowsPeer(l.ends[x], l.ends[!x]) && KnowsPeer(l.ends[!x], l.ends[x]);
    assert KnowsPeer(m.ends[x], m.ends[!x]) && KnowsPeer(m.ends[!x], m.ends[x]);
    assert AllCurrent(l, x) && AllCurrent(l, !x);
    forall v | v in m.air
      ensures WireOk(m, v)
    {
      assert v in l.air ==> WireOk(l, v);
    }
    forall v, u | v in m.air && u in m.air && Twins(v, u)
      ensures v == u
    {
      assert v in l.air && u in l.air ==> v == u;
      assert v in l.air && v.to == !x ==> v.frame.ct.key == Q(l, !x).current.value.stage.key;
      assert u in l.air && u.to == !x ==> u.frame.ct.key == Q(l, !x).current.value.stage.key;
    }
  }

  lemma MsgTwoArrives(l: Link, first: PairKey, x: bool, w: Wire, t0: nat) returns (ph2: Phase)
    requires Inv(l, first, Answered(x, w, t0))
    ensures Inv(SwitchLink(l, x, w), first, ph2)
  {
    MsgTwoCommon(l, first, x, w, t0);
    var m := SwitchLink(l, x, w);
    var k := w.frame.msg.key;
    assert Q(m, !x) == Q(l, !x) && Q(m, x) == SwitchedSlots(Q(l, x), k, l.clock);
    assert SideOk(l, first, x) && SideOk(l, first, !x);
    assert AllCurrent(l, x) && AllCurrent(l, !x);
    assert NoHandshakes(l.air - {w});
    assert NoHandshakes(m.air);
    var keep := Wire(Data(l.ends[x].id, l.ends[!x].id, 0, Sealed(k, true, 0, [])), l.clock, !x);
    assert Unconfirmed(m, !x);
    forall v | v in m.air && v.to == x
      ensures Awaits(Prev(Q(m, x)), v.frame) && v.at <= keep.at + m.delay[!x]
    {
      assert WireOk(l, v);
    }
    ph2 := Switched(x, keep);
  }

  // ---------- the sweep ----------

  /** Nothing in use is swept; at most a `previous` nobody needs any more. */
  lemma SweptSlots(l: Link, first: PairKey, ph: Phase, s: bool)
    requires Inv(l, first, ph) && Enabled(l, Sweep(s))
    ensures var q := Q(l, s); var m := Step(l, Sweep(s));
            && Shape(m) && (Q(m, s) == q || (Q(m, s) == q.(previous := None) && !q.PreviousInGrace(l.clock)))
            && Q(m, !s) == Q(l, !s)
  {
    var q := Q(l, s);
    assert SideOk(l, first, s) && KnowsPeer(l.ends[s], l.ends[!s]);
    if ph.Asked? || ph.Answered? {
      assert WireOk(l, ph.w);
    }
    assert q.next.Some? ==> !q.next.value.IsStaleHandshake(l.clock);
    SweptPeer(q, l.clock);
  }

  /** With a live current session and nothing stale behind it, a sweep takes at most the previous one. */
  lemma SweptPeer(q: PeerSessions, now: nat)
    requires Ready(q.current) && !q.current.value.MustExpire(now)
    requires q.next.Some? ==>
             !q.next.value.IsStaleHandshake(now) && (q.next.value.IsReady() ==> !q.next.value.MustExpire(now))
    ensures q.Expire(now) == q || (q.Expire(now) == q.(previous := None) && !q.PreviousInGrace(now))
    ensures !q.Expire(now).IsEmpty()
  {
  }

  /** Side `s` lost at most its `previous`. */
  lemma Slimmer(l: Link, first: PairKey, s: bool, t: map<NodeId, PeerSessions>)
    requires Shape(l) && Common(l, first) && l.ends[!s].id in t
    requires t[l.ends[!s].id] == Q(l, s) || t[l.ends[!s].id] == Q(l, s).(previous := None)
    ensures var m := l.(ends := l.ends[s := l.ends[s].(table := l.ends[s].table.(sessions := t))]);
            Shape(m) && Common(m, first)
  {
    var m := l.(ends := l.ends[s := l.ends[s].(table := l.ends[s].table.(sessions := t))]);
    assert Q(m, !s) == Q(l, !s);
    assert SideOk(l, first, s) && SideOk(l, first, !s);
    assert SideOk(m, first, s) && SideOk(m, first, !s);
    assert KnowsPeer(l.ends[s], l.ends[!s]) && KnowsPeer(l.ends[!s], l.ends[s]);
    assert KnowsPeer(m.ends[s], m.ends[!s]) && KnowsPeer(m.ends[!s], m.ends[s]);
    forall v | v in m.air
      ensures WireOk(m, v)
    {
      assert WireOk(l, v);
    }
  }

  lemma SweepCommon(l: Link, first: PairKey, ph: Phase, s: bool)
    requires Inv(l, first, ph) && Enabled(l, Sweep(s))
    ensures Shape(Step(l, Sweep(s))) && Common(Step(l, Sweep(s)), first)
  {
    SweptSlots(l, first, ph, s);
    assert SideOk(l, first, s);
    Slimmer(l, first, s, l.ends[s].table.Expire(l.clock).sessions);
  }

  lemma SweepSteady(l: Link, first: PairKey, s: bool)
    requires Inv(l, first, Steady) && Enabled(l, Sweep(s))
    ensures Shape(Step(l, Sweep(s))) && InSteady(Step(l, Sweep(s)))
  {
    SweptSlots(l, first, Steady, s);
    var m := Step(l, Sweep(s));
    assert m.ends[s].table.marks == l.ends[s].table.marks;
    forall w | w in m.air
      ensures Covered(Q(m, w.to), w, m.delay[w.to])
    {
      assert WireOk(l, w) && Covered(Q(l, w.to), w, l.delay[w.to]);
    }
  }

  lemma SweepAskedOrAnswered(l: Link, first: PairKey, ph: Phase, s: bool)
    requires Inv(l, first, ph) && Enabled(l, Sweep(s)) && (ph.Asked? || ph.Answered?)
    ensures Shape(Step(l, Sweep(s))) && InPhase(Step(l, Sweep(s)), ph)
  {
    SweptSlots(l, first, ph, s);
    var m := Step(l, Sweep(s));
    assert m.ends[s].table.marks == l.ends[s].table.marks;
    assert AllCurrent(l, s) && AllCurrent(l, !s);
    assert AllCurrent(m, s) && AllCurrent(m, !s);
  }

  lemma SweepSwitched(l: Link, first: PairKey, ph: Phase, s: bool)
    requires Inv(l, first, ph) && Enabled(l, Sweep(s)) && ph.Switched?
    ensures Shape(Step(l, Sweep(s))) && InPhase(Step(l, Sweep(s)), ph)
  {
    SweptSlots(l, first, ph, s);
    var m := Step(l, Sweep(s));
    assert m.ends[s].table.marks == l.ends[s].table.marks;
    assert WireOk(l, ph.w);
    assert s == ph.x ==> Q(m, s) == Q(l, s);
  }

  lemma SweepKeeps(l: Link, first: PairKey, ph: Phase, s: bool)
    requires Inv(l, first, ph) && Enabled(l, Sweep(s))
    ensures Inv(Step(l, Sweep(s)), first, ph)
  {
    SweepCommon(l, first, ph, s);
    if ph.Steady? {
      SweepSteady(l, first, s);
    } else if ph.Switched? {
      SweepSwitched(l, first, ph, s);
    } else {
      SweepAskedOrAnswered(l, first, ph, s);
    }
  }

  // ---------- every step ----------

  lemma StepKeeps(l: Link, first: PairKey, ph: Phase, e: Event) returns (ph2: Phase)
    requires Inv(l, first, ph) && Enabled(l, e)
    ensures Inv(Step(l, e), first, ph2)
  {
    ph2 := ph;
    match e
    case Tick(now) => TickKeeps(l, first, ph, now);
    case Send(s, pkt, wall) =>
      if StartsRekey(l, s) {
        ph2 := StartingSend(l, first, ph, s, pkt, wall);
      } else {
        PlainSend(l, first, ph, s, pkt, wall);
      }
    case Arrive(w) =>
      if w.frame.Data? {
        ph2 := DataArrives(l, first, ph, w);
      } else if ph.Asked? {
        MsgOneStep(l, first, ph.x, w);
        ph2 := MsgOneArrives(l, first, ph.x, w);
      } else {
        MsgTwoStep(l, first, ph.x, w, ph.t0);
        ph2 := MsgTwoArrives(l, first, ph.x, w, ph.t0);
      }
    case Sweep(s) => SweepKeeps(l, first, ph, s);
  }
}

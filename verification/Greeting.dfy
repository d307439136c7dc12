/**
 Two endpoints from their first packet on: without any session, through the first handshake and
 the packets it kept waiting, and through every replacement after it.
 */
module Greeting {
  import opened Base
  import opened Replay
  import opened Seal
  import opened Sessions
  import opened EngineSpec
  import opened Rekey

  /** Where the first handshake stands: who called, and the one message in the air. */
  datatype Greet =
    | Apart
    | Calling(x: bool, m: Wire)
    | Called(x: bool, m: Wire, t0: nat)

  predicate Strangers(l: Link)
    requires Shape(l)
  {
    var a, b := l.ends[false], l.ends[true];
    && a.id != b.id && a.pub != b.pub && a.uuid == b.uuid
    && l.delivered == {} && l.lost == {}
    && forall s :: PubkeyOf(l.ends[s].peers, l.ends[!s].id) == Some(l.ends[!s].pub)
  }

  /** The side holds nothing for the other one. */
  predicate Unmet(l: Link, s: bool)
    requires Shape(l)
  {
    Q(l, s).IsEmpty() && l.ends[s].table.Queued(l.ends[!s].id) == []
  }

  /** The call of `x`, started at `t0`, waits for its answer. */
  predicate InCall(l: Link, x: bool, t0: nat)
    requires Shape(l)
  {
    var c, o, q := l.ends[x], l.ends[!x], Q(l, x);
    && o.id in c.table.sessions && q.next.None? && q.previous.None?
    && q.CurrentInFlight() && q.current.value.establishedAt == t0 <= l.clock && q.current.value.seen == {}
    && var hs := q.current.value.Hs();
    && hs == Transcript(c.uuid, c.id, o.id, c.pub, o.pub, hs.e) && Drawn(l, hs.e)
  }

  predicate OnTime(l: Link, m: Wire)
    requires Shape(l)
  {
    m.at <= l.clock <= m.at + l.delay[m.to]
  }

  predicate InCalling(l: Link, x: bool, m: Wire)
    requires Shape(l)
  {
    && l.air == {m} && m.to == !x && OnTime(l, m)
    && InCall(l, x, m.at) && Unmet(l, !x) && MarkBehind(l.ends[x], l.ends[!x])
    && m.frame.Handshake? && m.frame.msg == Msg1(Q(l, x).current.value.Hs(), l.ends[x].lastTs)
    && l.ends[!x].table.AcceptsTs(l.ends[x].id, l.ends[x].pub, l.ends[x].lastTs)
  }

  predicate InCalled(l: Link, x: bool, m: Wire, t0: nat)
    requires Shape(l)
  {
    && l.air == {m} && m.to == x && OnTime(l, m) && m.at <= t0 + l.delay[!x]
    && InCall(l, x, t0) && Answerer(l, !x)
    && MarkBehind(l.ends[x], l.ends[!x]) && MarkBehind(l.ends[!x], l.ends[x])
    && m.frame.Handshake? && m.frame.msg == Msg2(Q(l, !x).current.value.stage.key)
    && Q(l, !x).current.value.stage.key.hs == Q(l, x).current.value.Hs()
  }

  /** A session that has neither sealed nor opened anything yet. */
  predicate Unused(s: Option<Session>) {
    Ready(s) && s.value.seen == {} && s.value.stage.sendNonce == 0
  }

  /** The side answered and holds the new session, on which nothing was sealed or opened yet. */
  predicate Answerer(l: Link, y: bool)
    requires Shape(l)
  {
    && KnowsPeer(l.ends[y], l.ends[!y]) && Q(l, y).next.None? && Q(l, y).previous.None?
    && Unused(Q(l, y).current) && !Q(l, y).current.value.initiator
  }

  predicate Greets(l: Link, g: Greet) {
    && Shape(l) && Strangers(l)
    && match g
       case Apart => InApart(l)
       case Calling(x, m) => InCalling(l, x, m)
       case Called(x, m, t0) => InCalled(l, x, m, t0)
  }

  predicate InApart(l: Link)
    requires Shape(l)
  {
    && l.air == {} && Unmet(l, false) && Unmet(l, true)
    && MarkBehind(l.ends[false], l.ends[true]) && MarkBehind(l.ends[true], l.ends[false])
  }

  // ---------- time, sweeps and more packets ----------

  lemma GreetTicks(l: Link, g: Greet, now: nat)
    requires Greets(l, g) && Enabled(l, Tick(now))
    ensures Greets(Step(l, Tick(now)), g)
  {
    var m := Step(l, Tick(now));
    assert forall s :: Q(m, s) == Q(l, s);
    if !g.Apart? { assert g.m in l.air; }
  }

  /** The caller's packets wait; the peer's are not sent before the caller is in session. */
  lemma GreetQueues(l: Link, g: Greet, s: bool, pkt: Packet, wall: Tai64n)
    requires Greets(l, g) && !g.Apart? && Enabled(l, Send(s, pkt, wall))
    ensures Greets(Step(l, Send(s, pkt, wall)), g)
  {
    assert s == g.x;
    var c, o := l.ends[s], l.ends[!s].id;
    var (d, fs) := c.Outbound(o, pkt, PubkeyOf(c.peers, o), l.clock, wall);
    assert d == c.(table := c.table.Queue(o, pkt)) && fs == [];
    var m := Step(l, Send(s, pkt, wall));
    assert Launch([], l.clock, !s) == {};
    assert m.air == l.air && Q(m, s) == Q(l, s) && Q(m, !s) == Q(l, !s);
  }

  /** The sweep finds nothing of ours to take. */
  lemma GreetSwept(q: PeerSessions, now: nat)
    requires q.next.None? && q.previous.None?
    requires q.current.Some? ==>
             !q.current.value.IsStaleHandshake(now) && (q.current.value.IsReady() ==> !q.current.value.MustExpire(now))
    ensures q.Expire(now) == q
  {
  }

  lemma GreetSweeps(l: Link, g: Greet, s: bool)
    requires Greets(l, g) && Enabled(l, Sweep(s))
    ensures Greets(Step(l, Sweep(s)), g)
  {
    var q, m := Q(l, s), Step(l, Sweep(s));
    GreetSwept(q, l.clock);
    assert Q(m, !s) == Q(l, !s);
    if q.IsEmpty() {
      assert Q(m, s).IsEmpty();
    } else {
      assert Q(m, s) == q;
    }
  }

  // ---------- the call ----------

  lemma CallStep(l: Link, s: bool, pkt: Packet, wall: Tai64n)
    requires Greets(l, Apart) && Enabled(l, Send(s, pkt, wall))
    ensures var c, o := l.ends[s], l.ends[!s];
            var i := Initiate(c.uuid, c.id, c.pub, o.id, o.pub, c.Fresh(), l.clock);
            var d := c.DrawEph().(table := c.table.Queue(o.id, pkt).Initiated(o.id, i), lastTs := c.NextTs(wall));
            var w := Wire(Handshake(c.id, o.id, Msg1(i.Hs(), c.NextTs(wall))), l.clock, !s);
            Step(l, Send(s, pkt, wall)) == l.(ends := l.ends[s := d], air := {w})
  {
    var c, o := l.ends[s], l.ends[!s];
    var (d, fs) := c.Outbound(o.id, pkt, Some(o.pub), l.clock, wall);
    assert Launch(fs, l.clock, !s) == {Wire(fs[0], l.clock, !s)};
  }

  lemma Calls(l: Link, s: bool, pkt: Packet, wall: Tai64n) returns (g: Greet)
    requires Greets(l, Apart) && Enabled(l, Send(s, pkt, wall))
    ensures Greets(Step(l, Send(s, pkt, wall)), g)
  {
    CallStep(l, s, pkt, wall);
    var m := Step(l, Send(s, pkt, wall));
    var c, o := l.ends[s], l.ends[!s];
    var i := Initiate(c.uuid, c.id, c.pub, o.id, o.pub, c.Fresh(), l.clock);
    var w := Wire(Handshake(c.id, o.id, Msg1(i.Hs(), c.NextTs(wall))), l.clock, !s);
    assert Q(m, !s) == Q(l, !s) && Q(m, s).current == Some(i);
    assert Q(l, s).IsEmpty() && MarkBehind(o, c) && MarkBehind(c, o);
    g := Calling(s, w);
  }

  // ---------- the answer ----------

  lemma AnswerStep(l: Link, x: bool, m: Wire)
    requires Greets(l, Calling(x, m))
    ensures var c, o := l.ends[!x], l.ends[x];
            var s := Respond(m.frame.msg, o.id, c.Fresh(), l.clock);
            var q := Q(l, !x).(current := Some(s), awaitingSince := None);
            var d := c.DrawEph().(table := c.table.NoteTs(o.id, o.pub, o.lastTs).With(o.id, q).DropPending(o.id));
            Step(l, Arrive(m)) ==
            l.(ends := l.ends[!x := d], air := {Wire(Handshake(c.id, o.id, Msg2(s.stage.key)), l.clock, x)})
  {
    var c, o, msg := l.ends[!x], l.ends[x], m.frame.msg;
    var s := Respond(msg, o.id, c.Fresh(), l.clock);
    assert IsInitiation(c.uuid, c.id, c.pub, o.id, msg);
    var (d, fs) := c.OnHandshake(o.id, msg, Some(o.pub), l.clock);
    assert fs == [Handshake(c.id, o.id, Msg2(s.stage.key))];
    assert d.table.Queued(o.id) == [];
    NothingToFlush(d, o.id, l.clock);
    assert Launch(fs + [], l.clock, x) == {Wire(fs[0], l.clock, x)};
    assert l.air - {m} == {};
  }

  lemma Answers(l: Link, x: bool, m: Wire) returns (g: Greet)
    requires Greets(l, Calling(x, m))
    ensures Greets(Step(l, Arrive(m)), g)
  {
    AnswerStep(l, x, m);
    var c, o := l.ends[!x], l.ends[x];
    var v := Step(l, Arrive(m));
    var s := Respond(m.frame.msg, o.id, c.Fresh(), l.clock);
    assert Q(v, x) == Q(l, x) && Q(v, !x).current == Some(s);
    assert InCall(v, x, m.at);
    g := Called(x, Wire(Handshake(c.id, o.id, Msg2(s.stage.key)), l.clock, x), m.at);
  }

  /** Until its answer arrives the caller opens nothing, so a frame that overtook the answer is lost. */
  lemma NothingOpensYet(l: Link, g: Greet, ctr: nat, ct: Cipher)
    requires Greets(l, g) && !g.Apart?
    ensures Q(l, g.x).Unseal(ctr, ct, l.clock).Err?
  {
    assert InCall(l, g.x, if g.Calling? then g.m.at else g.t0);
  }

  // ---------- in session ----------

  /** The key both ends send on. */
  predicate Share(l: Link, k: PairKey) {
    && Shape(l) && Ready(Q(l, false).current) && Ready(Q(l, true).current)
    && Q(l, false).current.value.stage.key == k && Q(l, true).current.value.stage.key == k
  }

  /** The link once the caller has its answer, before anything that waited is sent. */
  function JoinLink(l: Link, x: bool, m: Wire): Link
    requires Shape(l) && Q(l, x).current.Some? && m.frame.Handshake? && Q(l, x).current.value.IsReply(m.frame.msg)
  {
    var c, o, q := l.ends[x], l.ends[!x].id, Q(l, x);
    var t := c.table.With(o, q.(current := Some(q.current.value.Finish(m.frame.msg)))).DropPending(o);
    l.(ends := l.ends[x := c.(table := t)], air := {})
  }

  lemma JoinSides(l: Link, x: bool, m: Wire, t0: nat)
    requires Greets(l, Called(x, m, t0))
    ensures var j, k := JoinLink(l, x, m), m.frame.msg.key;
            && Share(j, k) && SideOk(j, k, x) && SideOk(j, k, !x) && KnowsPeer(j.ends[x], j.ends[!x]) &&
               KnowsPeer(j.ends[!x], j.ends[x])
            && Q(j, x).next.None? && Q(j, !x).next.None? && Together(j)
  {
    var j := JoinLink(l, x, m);
    assert Q(j, !x) == Q(l, !x);
    assert j.ends[x].table.Queued(l.ends[!x].id) == [];
  }

  lemma JoinIsSteady(l: Link, x: bool, m: Wire, t0: nat)
    requires Greets(l, Called(x, m, t0))
    ensures Inv(JoinLink(l, x, m), m.frame.msg.key, Steady)
  {
    JoinSides(l, x, m, t0);
    var j := JoinLink(l, x, m);
    assert forall s :: KnowsPeer(j.ends[s], j.ends[!s]);
  }

  function FlushLink(l: Link, s: bool, pkts: seq<Packet>): Link
    requires Shape(l) && l.ends[s].table.IsReady(l.ends[!s].id)
  {
    var (d, fs) := l.ends[s].SealAll(l.ends[!s].id, pkts);
    l.(ends := l.ends[s := d], air := l.air + Launch(fs, l.clock, !s))
  }

  lemma OneIsSealed(c: Core, o: NodeId, pkt: Packet, now: nat)
    requires c.table.IsReady(o)
    ensures SealedOne(c, c.SealTo(o, pkt).0, o, pkt, now)
  {
    var d := c.SealTo(o, pkt).0;
    assert d.table.sessions == c.table.sessions[o := d.table.sessions[o]];
  }

  lemma FlushOne(l: Link, s: bool, pkts: seq<Packet>)
    requires Shape(l) && l.ends[s].table.IsReady(l.ends[!s].id) && l.ends[s].id != l.ends[!s].id && pkts != []
    ensures var c := l.ends[s].SealTo(l.ends[!s].id, pkts[0]).0;
            var one := SealLink(l, s, pkts[0], c);
            && Shape(one) && one.ends[s].table.IsReady(one.ends[!s].id)
            && FlushLink(l, s, pkts) == FlushLink(one, s, pkts[1..])
  {
    var o := l.ends[!s].id;
    var (c, f) := l.ends[s].SealTo(o, pkts[0]);
    var one := SealLink(l, s, pkts[0], c);
    var (d, fs) := c.SealAll(o, pkts[1..]);
    assert Launch([f] + fs, l.clock, !s) == {Wire(f, l.clock, !s)} + Launch(fs, l.clock, !s);
    assert l.air + ({Wire(f, l.clock, !s)} + Launch(fs, l.clock, !s)) == one.air + Launch(fs, l.clock, !s);
    assert l.ends[s := d] == one.ends[s := d];
  }

  /** Every packet that waited is sealed in order, and the other side awaits each. */
  lemma {:induction false} FlushKeeps(l: Link, first: PairKey, s: bool, pkts: seq<Packet>)
    requires Inv(l, first, Steady) && Share(l, first)
    ensures Shape(l) && l.ends[s].table.IsReady(l.ends[!s].id)
    ensures Inv(FlushLink(l, s, pkts), first, Steady) && Share(FlushLink(l, s, pkts), first)
    decreases |pkts|
  {
    assert SideOk(l, first, s);
    if pkts == [] {
      assert Launch([], l.clock, !s) == {};
      assert l.ends[s := l.ends[s]] == l.ends && FlushLink(l, s, pkts) == l;
    } else {
      var c := l.ends[s].SealTo(l.ends[!s].id, pkts[0]).0;
      OneIsSealed(l.ends[s], l.ends[!s].id, pkts[0], l.clock);
      SealKeeps(l, first, Steady, s, pkts[0], c);
      FlushOne(l, s, pkts);
      var one := SealLink(l, s, pkts[0], c);
      assert Q(one, !s) == Q(l, !s);
      FlushKeeps(one, first, s, pkts[1..]);
    }
  }

  function NoteLink(l: Link, s: bool): Link
    requires Shape(l)
  {
    l.(ends := l.ends[s := l.ends[s].(table := l.ends[s].table.NoteSent(l.ends[!s].id, l.clock))])
  }

  lemma NoteKeeps(l: Link, first: PairKey, s: bool)
    requires Inv(l, first, Steady) && Share(l, first)
    ensures Inv(NoteLink(l, s), first, Steady) && Share(NoteLink(l, s), first)
  {
    var m := NoteLink(l, s);
    assert Q(m, !s) == Q(l, !s) && KnowsPeer(l.ends[s], l.ends[!s]) && KnowsPeer(l.ends[!s], l.ends[s]);
    assert Q(m, s) == Q(l, s).NoteSent(l.clock);
    assert SideOk(l, first, s) && SideOk(l, first, !s);
    assert SideOk(m, first, s) && SideOk(m, first, !s);
    assert KnowsPeer(m.ends[s], m.ends[!s]) && KnowsPeer(m.ends[!s], m.ends[s]);
    forall w | w in m.air
      ensures WireOk(m, w) && Covered(Q(m, w.to), w, m.delay[w.to])
    {
      assert WireOk(l, w) && Covered(Q(l, w.to), w, l.delay[w.to]);
    }
    assert Recent(l, s) && Recent(l, !s);
    assert Recent(m, s) && Recent(m, !s);
  }

  /** The caller's core when its answer arrives: finish, then seal whatever waited. */
  lemma FinishCore(c: Core, o: NodeId, msg: HandshakeMsg, pk: Option<StaticKey>, now: nat)
    requires o in c.table.sessions && c.table.Of(o).CurrentInFlight() && c.table.Of(o).next.None?
    requires c.table.Of(o).current.value.IsReply(msg)
    ensures var p := c.table.Of(o);
            var j := c.(table := c.table.With(o, p.(current := Some(p.current.value.Finish(msg)))).DropPending(o));
            var (d, fs) := j.SealAll(o, c.table.Queued(o));
            && j.table.IsReady(o)
            && c.OnHandshake(o, msg, pk, now) == (if fs == [] then d else d.(table := d.table.NoteSent(o, now)), fs)
  {
  }

  /** Sealing touches nothing but the one session. */
  lemma {:induction false} SealAllPending(c: Core, o: NodeId, pkts: seq<Packet>)
    requires c.table.IsReady(o)
    ensures c.SealAll(o, pkts).0.table.pending == c.table.pending
    decreases |pkts|
  {
    if pkts != [] {
      SealAllPending(c.SealTo(o, pkts[0]).0, o, pkts[1..]);
    }
  }

  /** A handshake message that leaves nothing waiting. */
  lemma ArriveStep(l: Link, w: Wire, d: Core, fs: seq<Frame>)
    requires Shape(l) && w.frame.Handshake? && l.ends[!w.to].id !in d.table.pending
    requires var c, o := l.ends[w.to], l.ends[!w.to].id;
             c.OnHandshake(o, w.frame.msg, PubkeyOf(c.peers, o), l.clock) == (d, fs)
    ensures Step(l, Arrive(w)) == l.(ends := l.ends[w.to := d], air := l.air - {w} + Launch(fs, l.clock, !w.to))
  {
    var o := l.ends[!w.to].id;
    NothingToFlush(d, o, l.clock);
    assert d.table.pending - {o} == d.table.pending;
    assert fs + [] == fs;
  }

  lemma JoinStep(l: Link, x: bool, m: Wire, t0: nat)
    requires Greets(l, Called(x, m, t0))
    ensures var j, queued := JoinLink(l, x, m), l.ends[x].table.Queued(l.ends[!x].id);
            && Shape(j) && j.ends[x].table.IsReady(j.ends[!x].id)
            && Step(l, Arrive(m)) == if queued == [] then FlushLink(j, x, queued)
               else NoteLink(FlushLink(j, x, queued), x)
  {
    var c, o := l.ends[x], l.ends[!x].id;
    var j, queued := JoinLink(l, x, m), c.table.Queued(o);
    FinishCore(c, o, m.frame.msg, Some(l.ends[!x].pub), l.clock);
    var (d, fs) := c.OnHandshake(o, m.frame.msg, Some(l.ends[!x].pub), l.clock);
    SealAllPending(j.ends[x], o, queued);
    ArriveStep(l, m, d, fs);
    assert l.air - {m} == {};
  }

  /** The caller's answer arrives: both ends share the key, and the packets that waited are on their way. */
  lemma FirstHandshakeJoins(l: Link, x: bool, m: Wire, t0: nat)
    requires Greets(l, Called(x, m, t0))
    ensures var v := Step(l, Arrive(m)); Inv(v, m.frame.msg.key, Steady) && Share(v, m.frame.msg.key)
  {
    var k, j := m.frame.msg.key, JoinLink(l, x, m);
    JoinStep(l, x, m, t0);
    JoinSides(l, x, m, t0);
    JoinIsSteady(l, x, m, t0);
    var queued := l.ends[x].table.Queued(l.ends[!x].id);
    FlushKeeps(j, k, x, queued);
    if queued != [] {
      NoteKeeps(FlushLink(j, x, queued), k, x);
    }
  }

  // ---------- whole runs ----------

  /** On the way to a first session, or in one: the first key shared and the phase. */
  datatype Where = Meeting(g: Greet) | Bound(first: PairKey, ph: Phase)

  predicate Holds(l: Link, at: Where) {
    match at
    case Meeting(g) => Greets(l, g)
    case Bound(first, ph) => Inv(l, first, ph)
  }

  lemma AnyStep(l: Link, at: Where, e: Event) returns (to: Where)
    requires Shape(l) && Holds(l, at) && Enabled(l, e)
    ensures Holds(Step(l, e), to)
    ensures at.Bound? ==> to.Bound? && to.first == at.first
    ensures at.Meeting? && to.Bound? ==> Share(Step(l, e), to.first)
  {
    if at.Bound? {
      var ph := StepKeeps(l, at.first, at.ph, e);
      to := Bound(at.first, ph);
    } else {
      to := GreetStep(l, at.g, e);
    }
  }

  lemma GreetStep(l: Link, g: Greet, e: Event) returns (to: Where)
    requires Greets(l, g) && Enabled(l, e)
    ensures Holds(Step(l, e), to) && (to.Bound? ==> Share(Step(l, e), to.first))
  {
    to := Meeting(g);
    match e
    case Tick(now) => GreetTicks(l, g, now);
    case Send(s, pkt, wall) =>
      if g.Apart? {
        var next := Calls(l, s, pkt, wall);
        to := Meeting(next);
      } else {
        GreetQueues(l, g, s, pkt, wall);
      }
    case Arrive(w) =>
      if g.Calling? {
        var next := Answers(l, g.x, w);
        to := Meeting(next);
      } else {
        FirstHandshakeJoins(l, g.x, w, g.t0);
        to := Bound(w.frame.msg.key, Steady);
      }
    case Sweep(s) => GreetSweeps(l, g, s);
  }

  ghost predicate Follows(l: Link, m: Link) {
    Shape(l) && exists e: Event :: Enabled(l, e) && m == Step(l, e)
  }

  /** Any run of two endpoints that know each other and have no session yet. */
  ghost predicate IsRun(run: seq<Link>) {
    && |run| > 0 && Greets(run[0], Apart)
    && forall i {:trigger StepAt(run, i)} :: 0 < i < |run| ==> StepAt(run, i)
  }

  ghost predicate StepAt(run: seq<Link>, i: nat)
    requires 0 < i < |run|
  {
    Follows(run[i - 1], run[i])
  }

  lemma Onward(l: Link, at: Where, m: Link) returns (to: Where)
    requires Holds(l, at) && Follows(l, m)
    ensures Holds(m, to)
    ensures at.Bound? ==> to.Bound? && to.first == at.first
    ensures at.Meeting? && to.Bound? ==> Share(m, to.first)
  {
    var e: Event :| Enabled(l, e) && m == Step(l, e);
    to := AnyStep(l, at, e);
  }

  lemma {:induction false} RunAt(run: seq<Link>, k: nat) returns (at: Where)
    requires IsRun(run) && k < |run|
    ensures Holds(run[k], at)
  {
    if k == 0 {
      at := Meeting(Apart);
    } else {
      var was := RunAt(run, k - 1);
      assert StepAt(run, k);
      at := Onward(run[k - 1], was, run[k]);
    }
  }

  ghost predicate Joined(l: Link) {
    Shape(l) && Ready(Q(l, false).current) && Ready(Q(l, true).current)
  }

  /** From here on both ends have a session. */
  ghost predicate JoinsAt(run: seq<Link>, i: nat) {
    0 < i < |run| && !Joined(run[i - 1]) && Joined(run[i])
  }

  lemma JoinedIffBound(l: Link, at: Where)
    requires Holds(l, at)
    ensures Joined(l) <==> at.Bound?
  {
    match at
    case Bound(first, _) => assert SideOk(l, first, false) && SideOk(l, first, true);
    case Meeting(g) => assert if g.Apart? then Q(l, false).IsEmpty() else !Ready(Q(l, g.x).current);
  }

  /**
   From the first packet on, however often either side replaces the session: every data frame that
   arrives opens; once the first handshake is through, both sides always have a session to send on;
   and a side that answered a later handshake sends on its key only after a frame on it arrived.
   */
  lemma RekeysLoseNothing(run: seq<Link>, k: nat, s: bool)
    requires IsRun(run) && k < |run|
    ensures Shape(run[k]) && run[k].lost == {}
    ensures forall i :: 0 < i <= k && JoinsAt(run, i) ==>
              && Ready(Q(run[i], s).current) && Ready(Q(run[k], s).current)
              && Confirmed(run[k], Q(run[i], s).current.value.stage.key, Q(run[k], s).current)
  {
    var at := RunAt(run, k);
    forall i | 0 < i <= k && JoinsAt(run, i)
      ensures Ready(Q(run[i], s).current) && Ready(Q(run[k], s).current)
      ensures Confirmed(run[k], Q(run[i], s).current.value.stage.key, Q(run[k], s).current)
    {
      var joined := JoinedAt(run, i);
      var last := BoundFrom(run, i, k, joined);
      BoundIsConfirmed(run[k], last, s);
    }
  }

  /** Both ends become ready in the step that ends the first handshake, on the key it made. */
  lemma JoinedAt(run: seq<Link>, i: nat) returns (at: Where)
    requires IsRun(run) && JoinsAt(run, i)
    ensures at.Bound? && Holds(run[i], at) && Share(run[i], at.first)
  {
    var was := RunAt(run, i - 1);
    JoinedIffBound(run[i - 1], was);
    assert StepAt(run, i);
    at := Onward(run[i - 1], was, run[i]);
    JoinedIffBound(run[i], at);
  }

  lemma {:induction false} BoundFrom(run: seq<Link>, i: nat, k: nat, at: Where) returns (to: Where)
    requires IsRun(run) && i <= k < |run| && at.Bound? && Holds(run[i], at)
    ensures to.Bound? && to.first == at.first && Holds(run[k], to)
    decreases k
  {
    to := at;
    if i < k {
      to := BoundFrom(run, i, k - 1, at);
      assert StepAt(run, k);
      to := Onward(run[k - 1], to, run[k]);
    }
  }

  lemma BoundIsConfirmed(l: Link, at: Where, s: bool)
    requires at.Bound? && Holds(l, at)
    ensures Shape(l) && Ready(Q(l, s).current) && Confirmed(l, at.first, Q(l, s).current)
  {
    assert SideOk(l, at.first, s);
  }
}

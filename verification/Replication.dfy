/**
 View replication over whole runs: one coordinator that publishes, crashes and restarts, and any
 number of member instances that connect, report, fall behind and catch up.
 */
module Replication {
  import opened Base
  import opened Snapshots
  import opened Directories
  import opened Control

  // A member process: its copy, its open connection, everything it ever reported.
  datatype Inst = Inst(node: NodeId, copy: Snapshot, conn: Option<ConnId>, said: set<Report>)

  // `hist` is what this coordinator process published, after the empty start; `pubs` is what any
  // process ever published, by generation; `minted` the generations in the order handed out.
  datatype World = World(
    net: NetView,
    insts: map<nat, Inst>,
    nextConn: ConnId,
    hist: seq<Snapshot>,
    pubs: map<nat, Snapshot>,
    minted: seq<nat>)

  datatype Event =
    | Boot(i: nat, node: NodeId)
    | Connect(i: nat, content: Snapshot, nowMs: nat, grace: bool)
    | Publish(content: Snapshot, nowMs: nat)
    | Say(i: nat)
    | Beat(i: nat, r: Report, publish: Option<(Snapshot, nat)>, grace: bool)
    | Ask(i: nat, r: Report, grace: bool)
    | SendRaw(c: ConnId)
    | Write(c: ConnId)
    | Deliver(c: ConnId)
    | WriterGone(c: ConnId)
    | Hangup(i: nat)
    | Teardown(c: ConnId, content: Snapshot, nowMs: nat)
    | Crash(nowMs: nat)

  function Opening(mark: nat, nowMs: nat): NetView {
    NetView(FreshDir(InitialGen(mark, nowMs)), mark, map[], map[])
  }

  function Init(nowMs: nat): World {
    var net := Opening(0, nowMs);
    World(net, map[], 0, [net.dir.published], map[], [])
  }

  /** What the coordinator derives always carries a network MTU of at least the minimum. */
  predicate Shown(content: Snapshot) {
    content.mtu.mtu >= MIN_TUNNEL_MTU
  }

  /** A coordinator operation, with any generation it minted written down. */
  function Logged(w: World, net: NetView): World {
    if net.dir.gen == w.net.dir.gen then w.(net := net) else
    w.(net := net,
       hist := w.hist + [net.dir.published],
       pubs := w.pubs[net.dir.gen := net.dir.published],
       minted := w.minted + [net.dir.gen])
  }

  function ReportOf(s: Snapshot): Report {
    Report(s.gen, Digest(s))
  }

  /** A member reads one push: a snapshot replaces its copy unless older, a delta is applied. */
  function Received(copy: Snapshot, p: Push): Result<Snapshot, GenerationGap> {
    match p
    case PushDelta(d) => Applied(copy, d)
    case PushSnapshot(s) => Ok(Installed(copy, s))
    case Raw => Ok(copy)
    case Close => Ok(copy)
  }

  /** Reading a whole queue in order. */
  function Drained(copy: Snapshot, q: seq<Push>): Result<Snapshot, GenerationGap>
    decreases |q|
  {
    if q == [] then Ok(copy) else
    match Received(copy, q[0])
    case Ok(t) => Drained(t, q[1..])
    case Err(e) => Err(e)
  }

  /** On a gap the copy stays and the member asks to be resynced from it. */
  function Read(m: Inst, p: Push): Inst {
    match Received(m.copy, p)
    case Ok(t) => m.(copy := t)
    case Err(_) => m.(said := m.said + {ReportOf(m.copy)})
  }

  predicate Enabled(w: World, e: Event)
    requires w.net.Valid()
  {
    match e
    case Boot(i, _) => i !in w.insts
    case Connect(i, content, _, _) => i in w.insts && w.insts[i].conn.None? && w.nextConn !in w.net.conns &&
      Shown(content)
    case Publish(content, _) => Shown(content)
    case Say(i) => i in w.insts
    case Beat(i, r, publish, _) => i in w.insts && r in w.insts[i].said && (publish.Some? ==> Shown(publish.value.0))
    case Ask(i, r, _) => i in w.insts && r in w.insts[i].said
    case SendRaw(c) => c in w.net.conns && w.net.conns[c].Room()
    case Write(c) => c in w.net.conns && w.net.conns[c].chan != [] && !w.net.conns[c].closing
    case Deliver(c) =>
      && c in w.net.conns && w.net.conns[c].wire != []
      && w.net.conns[c].inst in w.insts && w.insts[w.net.conns[c].inst].conn == Some(c)
    case WriterGone(c) => c in w.net.conns
    case Hangup(i) => i in w.insts
    case Teardown(c, content, _) => c in w.net.conns && w.net.conns[c].inst in w.insts && Shown(content)
    case Crash(_) => true
  }

  function SetConn(w: World, c: ConnId, conn: Conn): World {
    w.(net := w.net.(conns := w.net.conns[c := conn]))
  }

  function SetInst(w: World, i: nat, m: Inst): World {
    w.(insts := w.insts[i := m])
  }

  function Disconnected(m: Inst): Inst {
    m.(conn := None)
  }

  function Step(w: World, e: Event): World
    requires w.net.Valid() && Enabled(w, e)
  {
    match e
    case Boot(i, node) => SetInst(w, i, Inst(node, EMPTY, None, {}))
    case Connect(i, content, nowMs, grace) =>
      var m := w.insts[i];
      var net := w.net.Register(m.node, w.nextConn, i, m.copy.gen, content, nowMs, grace);
      Logged(w, net).(insts := w.insts[i := m.(conn := Some(w.nextConn))], nextConn := w.nextConn + 1)
    case Publish(content, nowMs) => Logged(w, w.net.Publish(content, nowMs))
    case Say(i) => SetInst(w, i, w.insts[i].(said := w.insts[i].said + {ReportOf(w.insts[i].copy)}))
    case Beat(i, r, publish, grace) => Logged(w, w.net.OnHeartbeat(w.insts[i].node, r, publish, grace))
    case Ask(i, r, grace) => if grace then w else w.(net := w.net.CatchUp(w.insts[i].node, r.gen))
    case SendRaw(c) => SetConn(w, c, Offer(w.net.conns[c], Raw))
    case Write(c) =>
      var conn := w.net.conns[c];
      SetConn(w, c, conn.(wire := conn.wire + [conn.chan[0]], chan := conn.chan[1..]))
    case Deliver(c) =>
      var conn := w.net.conns[c];
      SetInst(SetConn(w, c, conn.(wire := conn.wire[1..])), conn.inst, Read(w.insts[conn.inst], conn.wire[0]))
    case WriterGone(c) => SetConn(w, c, w.net.conns[c].(up := false))
    case Hangup(i) => SetInst(w, i, Disconnected(w.insts[i]))
    case Teardown(c, content, nowMs) =>
      Logged(w, w.net.Teardown(w.insts[w.net.conns[c].inst].node, c, content, nowMs))
    case Crash(nowMs) =>
      var net := Opening(w.net.mark, nowMs);
      w.(net := net, hist := [net.dir.published], insts := map i | i in w.insts :: Disconnected(w.insts[i]))
  }

  // ---------- what is true of every reachable world ----------

  /** Normalised views, each newer than the one before. */
  ghost predicate Advances(hist: seq<Snapshot>) {
    && (forall k {:trigger IsNormal(hist[k])} :: 0 <= k < |hist| ==> IsNormal(hist[k]))
    && Rising(hist)
  }

  ghost predicate Rising(hist: seq<Snapshot>) {
    forall j, k :: 0 <= j < k < |hist| ==> hist[j].gen < hist[k].gen
  }

  /** The ring leads through the last views of the history, the published one at its end. */
  ghost predicate HistFits(dir: Dir, hist: seq<Snapshot>) {
    && |hist| >= 1 && hist[0].gen > 0 && hist[0] == EMPTY.(gen := hist[0].gen)
    && |dir.ring| < |hist| && |dir.ring| <= RING
    && Advances(hist)
    && dir.published == hist[|hist| - 1] && dir.gen == dir.published.gen
    && RingOnHist(dir.ring, hist)
  }

  ghost predicate RingOnHist(ring: seq<Delta>, hist: seq<Snapshot>)
    requires |ring| < |hist|
  {
    forall i {:trigger ring[i]} :: 0 <= i < |ring| ==> RingAt(ring, hist, i)
  }

  ghost predicate RingAt(ring: seq<Delta>, hist: seq<Snapshot>, i: nat)
    requires i < |ring| < |hist|
  {
    var n := |hist| - 1 - |ring|;
    ring[i] == Diff(hist[n + i], hist[n + i + 1])
  }

  ghost predicate HistOk(w: World) {
    HistFits(w.net.dir, w.hist)
  }

  ghost predicate InHist(hist: seq<Snapshot>, g: nat) {
    exists k :: 1 <= k < |hist| && hist[k].gen == g
  }

  ghost predicate PubsFit(hist: seq<Snapshot>, pubs: map<nat, Snapshot>, mark: nat)
    requires |hist| >= 1
  {
    && (forall g <- pubs :: 0 < g < mark && pubs[g].gen == g)
    && (forall k :: 1 <= k < |hist| ==> hist[k].gen in pubs && pubs[hist[k].gen] == hist[k])
    && (forall g {:trigger InHist(hist, g)} :: g in pubs ==> g < hist[0].gen || InHist(hist, g))
  }

  ghost predicate PubsOk(w: World)
    requires |w.hist| >= 1
  {
    PubsFit(w.hist, w.pubs, w.net.mark)
  }

  ghost predicate MintedOk(minted: seq<nat>, pubs: map<nat, Snapshot>) {
    && (forall j, k :: 0 <= j < k < |minted| ==> minted[j] < minted[k])
    && (forall g <- minted :: g in pubs)
    && (forall g <- pubs :: g in minted)
  }

  /** A copy is the empty one or exactly what was published at its generation. */
  ghost predicate Held(pubs: map<nat, Snapshot>, s: Snapshot) {
    s == EMPTY || (s.gen in pubs && pubs[s.gen] == s)
  }

  ghost predicate ReportOk(pubs: map<nat, Snapshot>, r: Report) {
    if r.gen == 0 then true else r.gen in pubs && r.content == Digest(pubs[r.gen])
  }

  ghost predicate InstOk(pubs: map<nat, Snapshot>, m: Inst) {
    Held(pubs, m.copy) && forall r <- m.said :: r.gen <= m.copy.gen && ReportOk(pubs, r)
  }

  ghost predicate InstsOk(pubs: map<nat, Snapshot>, insts: map<nat, Inst>) {
    forall i <- insts :: InstOk(pubs, insts[i])
  }

  ghost predicate PushOk(hist: seq<Snapshot>, p: Push) {
    match p
    case PushDelta(d) => exists k :: 0 <= k < |hist| - 1 && d == Diff(hist[k], hist[k + 1])
    case PushSnapshot(s) => exists k :: 1 <= k < |hist| && s == hist[k]
    case Raw => true
    case Close => true
  }

  ghost predicate QueueOk(hist: seq<Snapshot>, q: seq<Push>) {
    forall p <- q :: PushOk(hist, p)
  }

  ghost predicate ConnOk(w: World, conn: Conn) {
    conn.inst in w.insts && QueueOk(w.hist, conn.Queue())
  }

  ghost predicate ConnsOk(w: World) {
    && w.net.Valid()
    && (forall c <- w.net.conns :: c < w.nextConn && ConnOk(w, w.net.conns[c]))
  }

  /** Nobody was given a connection before something was published. */
  ghost predicate Started(w: World) {
    w.net.conns != map[] ==> |w.hist| >= 2
  }

  ghost predicate Truth(w: World) {
    HistOk(w) && PubsOk(w) && MintedOk(w.minted, w.pubs) && ConnsOk(w) && InstsOk(w.pubs, w.insts)
  }

  // ---------- publishing ----------

  /** The views the ring leads through are the tail of the history. */
  lemma RingView(dir: Dir, hist: seq<Snapshot>)
    requires HistFits(dir, hist)
    ensures RingOk(dir, hist[|hist| - 1 - |dir.ring|..])
  {
    var n := |hist| - 1 - |dir.ring|;
    TailAdvances(hist, n);
    TailLeads(dir.ring, hist, n);
  }

  lemma TailAdvances(hist: seq<Snapshot>, n: nat)
    requires Advances(hist) && n < |hist|
    ensures Advances(hist[n..])
  {
    forall i | 0 <= i < |hist[n..]|
      ensures IsNormal(hist[n..][i])
    {
      assert IsNormal(hist[n + i]);
    }
  }

  lemma TailLeads(ring: seq<Delta>, hist: seq<Snapshot>, n: nat)
    requires n + 1 + |ring| == |hist| && Advances(hist[n..]) && RingOnHist(ring, hist)
    ensures Leads(ring, hist[n..])
  {
    var past := hist[n..];
    forall i | 0 <= i < |ring|
      ensures ring[i] == Diff(past[i], past[i + 1])
    {
      assert RingAt(ring, hist, i);
    }
  }

  lemma LastIsPublished(w: World)
    requires HistOk(w)
    ensures w.hist[|w.hist| - 1] == w.net.dir.published && w.net.dir.gen == w.hist[|w.hist| - 1].gen
  {
  }

  ghost predicate NotNewer(w: World) {
    forall g <- w.pubs :: g <= w.net.dir.gen
  }

  lemma PubsAreNotNewer(w: World)
    requires HistOk(w) && PubsOk(w)
    ensures NotNewer(w)
  {
    LastIsPublished(w);
    forall g | g in w.pubs
      ensures g <= w.net.dir.gen
    {
      assert g < w.hist[0].gen || InHist(w.hist, g);
    }
  }

  /** The world after one more view was published, whatever became of the sessions. */
  ghost predicate Extends(w: World, v: World) {
    var s := v.net.dir.published;
    && IsNormal(s) && s.gen == v.net.dir.gen > w.net.dir.gen
    && v.hist == w.hist + [s] && v.pubs == w.pubs[s.gen := s] && v.minted == w.minted + [s.gen]
    && v.net.mark == NoteGen(w.net.mark, s.gen)
    && v.net.dir.ring == Trimmed(w.net.dir.ring + [Diff(w.net.dir.published, s)])
    && v.insts == w.insts && v.nextConn == w.nextConn
  }

  lemma AdvancesFurther(hist: seq<Snapshot>, s: Snapshot)
    requires Advances(hist) && |hist| >= 1 && IsNormal(s) && hist[|hist| - 1].gen < s.gen
    ensures Advances(hist + [s])
  {
    var h := hist + [s];
    forall j, k | 0 <= j < k < |h|
      ensures h[j].gen < h[k].gen
    {
      if k == |hist| && j < |hist| - 1 { assert hist[j].gen < hist[|hist| - 1].gen; }
    }
  }

  /** One more view published: the ring still leads through the last ones. */
  lemma HistGrows(dir: Dir, hist: seq<Snapshot>, s: Snapshot)
    requires HistFits(dir, hist) && IsNormal(s) && dir.gen < s.gen
    ensures HistFits(Dir(s.gen, s, Trimmed(dir.ring + [Diff(dir.published, s)])), hist + [s])
  {
    AdvancesFurther(hist, s);
    var more, whole := hist + [s], dir.ring + [Diff(dir.published, s)];
    var ring := Trimmed(whole);
    var cut := |whole| - |ring|;
    forall i | 0 <= i < |ring|
      ensures RingAt(ring, more, i)
    {
      assert ring[i] == whole[i + cut];
      if i + cut < |dir.ring| {
        assert RingAt(dir.ring, hist, i + cut);
      }
    }
  }

  lemma ExtendsHist(w: World, v: World)
    requires HistOk(w) && Extends(w, v)
    ensures HistOk(v)
  {
    HistGrows(w.net.dir, w.hist, v.net.dir.published);
    assert v.net.dir == Dir(v.net.dir.gen, v.net.dir.published, v.net.dir.ring);
  }

  lemma ExtendsInHist(w: World, v: World, g: nat)
    requires |w.hist| >= 1 && Extends(w, v)
    ensures InHist(v.hist, g) <==> InHist(w.hist, g) || g == v.net.dir.gen
  {
    if InHist(w.hist, g) {
      var k :| 1 <= k < |w.hist| && w.hist[k].gen == g;
      assert v.hist[k].gen == g;
    }
    if g == v.net.dir.gen {
      assert v.hist[|w.hist|].gen == g;
    }
  }

  lemma ExtendsPubs(w: World, v: World)
    requires |w.hist| >= 1 && PubsOk(w) && NotNewer(w) && Extends(w, v)
    ensures PubsOk(v) && v.net.dir.gen !in w.pubs
  {
    forall g | g in v.pubs
      ensures g < v.hist[0].gen || InHist(v.hist, g)
    {
      ExtendsInHist(w, v, g);
    }
    forall k | 1 <= k < |v.hist|
      ensures v.hist[k].gen in v.pubs && v.pubs[v.hist[k].gen] == v.hist[k]
    {
      if k < |w.hist| { assert w.hist[k].gen in w.pubs; }
    }
  }

  lemma ExtendsMinted(w: World, v: World)
    requires NotNewer(w) && MintedOk(w.minted, w.pubs) && Extends(w, v)
    ensures MintedOk(v.minted, v.pubs)
  {
    forall j, k | 0 <= j < k < |v.minted|
      ensures v.minted[j] < v.minted[k]
    {
      if k == |w.minted| { assert w.minted[j] in w.pubs; }
    }
  }

  lemma ExtendsInst(w: World, v: World, m: Inst)
    requires NotNewer(w) && Extends(w, v) && InstOk(w.pubs, m)
    ensures InstOk(v.pubs, m)
  {
    forall r | r in m.said
      ensures ReportOk(v.pubs, r)
    {
      assert ReportOk(w.pubs, r);
    }
  }

  lemma QueueOkExtends(hist: seq<Snapshot>, s: Snapshot, q: seq<Push>)
    requires QueueOk(hist, q)
    ensures QueueOk(hist + [s], q)
  {
    var more := hist + [s];
    forall p | p in q
      ensures PushOk(more, p)
    {
      assert PushOk(hist, p);
      match p
      case PushDelta(d) =>
        var k :| 0 <= k < |hist| - 1 && d == Diff(hist[k], hist[k + 1]);
        assert d == Diff(more[k], more[k + 1]);
      case PushSnapshot(t) =>
        var k :| 1 <= k < |hist| && t == hist[k];
        assert t == more[k];
      case _ =>
    }
  }

  function Published(w: World, content: Snapshot, nowMs: nat): World
    requires w.net.Valid()
  {
    Logged(w, w.net.Publish(content, nowMs))
  }

  /** Publishing either changes nothing or adds one view to the history. */
  lemma PublishedExtends(w: World, content: Snapshot, nowMs: nat)
    requires HistOk(w) && w.net.Valid()
    ensures var v := Published(w, content, nowMs);
            || (v == w && Candidate(w.net.dir, content) == w.net.dir.published)
            || Extends(w, v)
  {
    var (after, d) := Recomputed(w.net.dir, content, nowMs);
    if d.Some? {
      NextIsNormal(w.net.dir, content, nowMs);
    }
  }

  /** Publishing adds a view exactly if the content does not mean what is published. */
  lemma PublishedIffChanged(w: World, content: Snapshot, nowMs: nat)
    requires HistOk(w) && w.net.Valid()
    ensures var v := Published(w, content, nowMs);
            if SameContent(content, w.net.dir.published) then v == w
            else Extends(w, v) && SameContent(v.net.dir.published, content)
  {
    LastIsPublished(w);
    assert IsNormal(w.hist[|w.hist| - 1]);
    QuietIffSameContent(w.net.dir, content, nowMs);
    PublishedExtends(w, content, nowMs);
    assert Published(w, content, nowMs).net.dir == Recomputed(w.net.dir, content, nowMs).0;
  }

  /** The new view was queued on this connection as a delta on the one before. */
  ghost predicate Announced(w: World, v: World, c: ConnId)
    requires c in w.net.conns && c in v.net.conns
  {
    v.net.conns[c].Queue() == w.net.conns[c].Queue() + [PushDelta(Diff(w.net.dir.published, v.net.dir.published))]
  }

  lemma PublishedQueue(w: World, content: Snapshot, nowMs: nat, c: ConnId)
    requires HistOk(w) && w.net.Valid() && c in w.net.conns
    ensures var v := Published(w, content, nowMs);
            c in v.net.conns && (v.net.conns[c].Queue() == w.net.conns[c].Queue() ||
              (Extends(w, v) && Announced(w, v, c)))
  {
    PublishedExtends(w, content, nowMs);
    var (after, d) := Recomputed(w.net.dir, content, nowMs);
    if d.Some? {
      w.net.(dir := after, mark := NoteGen(w.net.mark, after.gen)).BroadcastQueue(d.value, c);
    }
  }

  /** The announced delta is a true push. */
  lemma AnnouncedOk(w: World, v: World)
    requires HistOk(w) && Extends(w, v)
    ensures PushOk(v.hist, PushDelta(Diff(w.net.dir.published, v.net.dir.published)))
  {
    LastIsPublished(w);
    var k := |w.hist| - 1;
    assert v.hist[k] == w.net.dir.published && v.hist[k + 1] == v.net.dir.published;
  }

  lemma PublishedConn(w: World, content: Snapshot, nowMs: nat, c: ConnId)
    requires HistOk(w) && ConnsOk(w) && c in w.net.conns
    ensures QueueOk(Published(w, content, nowMs).hist, Published(w, content, nowMs).net.conns[c].Queue())
  {
    var v := Published(w, content, nowMs);
    PublishedExtends(w, content, nowMs);
    PublishedQueue(w, content, nowMs, c);
    assert ConnOk(w, w.net.conns[c]);
    if Extends(w, v) {
      QueueOkExtends(w.hist, v.net.dir.published, w.net.conns[c].Queue());
      AnnouncedOk(w, v);
    }
  }

  lemma PublishedConns(w: World, content: Snapshot, nowMs: nat)
    requires HistOk(w) && ConnsOk(w)
    ensures ConnsOk(Published(w, content, nowMs))
  {
    var v := Published(w, content, nowMs);
    PublishedExtends(w, content, nowMs);
    forall c | c in v.net.conns
      ensures ConnOk(v, v.net.conns[c])
    {
      PublishedConn(w, content, nowMs, c);
      assert ConnOk(w, w.net.conns[c]);
    }
  }

  lemma PublishedKeeps(w: World, content: Snapshot, nowMs: nat)
    requires Truth(w)
    ensures Truth(Published(w, content, nowMs))
  {
    var v := Published(w, content, nowMs);
    PublishedExtends(w, content, nowMs);
    PublishedConns(w, content, nowMs);
    PubsAreNotNewer(w);
    if Extends(w, v) {
      ExtendsHist(w, v);
      ExtendsPubs(w, v);
      ExtendsMinted(w, v);
      forall i | i in v.insts
        ensures InstOk(v.pubs, v.insts[i])
      {
        ExtendsInst(w, v, v.insts[i]);
      }
    }
  }

  /** The first thing a coordinator derives is never what an empty start holds. */
  lemma PublishedSomething(w: World, content: Snapshot, nowMs: nat)
    requires HistOk(w) && w.net.Valid() && Shown(content)
    ensures |Published(w, content, nowMs).hist| >= 2
  {
    PublishedExtends(w, content, nowMs);
    LastIsPublished(w);
  }

  // ---------- catching up ----------

  /** The deltas that lead from the `b`-th view of the history to its end. */
  function Onward(hist: seq<Snapshot>, b: nat): seq<Push>
    decreases |hist| - b
  {
    if b + 1 >= |hist| then [] else [PushDelta(Diff(hist[b], hist[b + 1]))] + Onward(hist, b + 1)
  }

  lemma {:induction false} OnwardOk(hist: seq<Snapshot>, b: nat)
    ensures QueueOk(hist, Onward(hist, b))
    decreases |hist| - b
  {
    if b + 1 < |hist| {
      OnwardOk(hist, b + 1);
      assert PushOk(hist, PushDelta(Diff(hist[b], hist[b + 1])));
    }
  }

  lemma {:induction false} LeadsOnward(ring: seq<Delta>, past: seq<Snapshot>, hist: seq<Snapshot>, i: nat, b: nat)
    requires Leads(ring, past) && i <= |ring| && |past| - i == |hist| - b && past[i..] == hist[b..]
    ensures DeltaPushes(ring[i..]) == Onward(hist, b)
    decreases |ring| - i
  {
    if i < |ring| {
      assert past[i] == past[i..][0] && past[i + 1] == past[i..][1];
      assert hist[b] == hist[b..][0] && hist[b + 1] == hist[b..][1];
      assert past[i + 1..] == past[i..][1..] && hist[b + 1..] == hist[b..][1..];
      LeadsOnward(ring, past, hist, i + 1, b + 1);
      assert ring[i] == Diff(past[i], past[i + 1]);
      assert DeltaPushes(ring[i..]) == [PushDelta(ring[i])] + DeltaPushes(ring[i + 1..]);
    }
  }

  lemma ChainOnward(dir: Dir, hist: seq<Snapshot>, n: nat, have: nat) returns (b: nat)
    requires n <= |hist| && RingOk(dir, hist[n..]) && DeltasSince(dir, have).Some?
    ensures b < |hist| && hist[b].gen == have && DeltaPushes(DeltasSince(dir, have).value) == Onward(hist, b)
  {
    var past := hist[n..];
    var i := CatchUpStart(dir, past, have);
    b := n + i;
    assert past[i..] == hist[b..];
    LeadsOnward(dir.ring, past, hist, i, b);
  }

  /** A catch-up with deltas is the rest of the history from the generation held. */
  lemma PushesOnward(w: World, have: nat) returns (b: nat)
    requires HistOk(w) && DeltasSince(w.net.dir, have).Some?
    ensures b < |w.hist| && w.hist[b].gen == have && w.net.Pushes(have) == Onward(w.hist, b)
  {
    RingView(w.net.dir, w.hist);
    b := ChainOnward(w.net.dir, w.hist, |w.hist| - 1 - |w.net.dir.ring|, have);
  }

  lemma PushesOk(w: World, have: nat)
    requires HistOk(w) && |w.hist| >= 2
    ensures QueueOk(w.hist, w.net.Pushes(have))
  {
    if DeltasSince(w.net.dir, have).Some? {
      var b := PushesOnward(w, have);
      OnwardOk(w.hist, b);
    } else {
      LastIsPublished(w);
      assert PushOk(w.hist, PushSnapshot(w.hist[|w.hist| - 1]));
    }
  }

  function CaughtUp(w: World, node: NodeId, have: nat): World
    requires w.net.Valid()
  {
    w.(net := w.net.CatchUp(node, have))
  }

  lemma PrefixQueueOk(hist: seq<Snapshot>, q: seq<Push>, ps: seq<Push>, k: nat)
    requires QueueOk(hist, q) && QueueOk(hist, ps) && k <= |ps|
    ensures QueueOk(hist, q + ps[..k])
  {
    forall p | p in q + ps[..k]
      ensures PushOk(hist, p)
    {
      if p !in q { assert p in ps[..k]; }
    }
  }

  lemma CaughtUpConns(w: World, node: NodeId, have: nat)
    requires HistOk(w) && ConnsOk(w) && Started(w)
    ensures ConnsOk(CaughtUp(w, node, have))
  {
    if node in w.net.sessions {
      var c := w.net.sessions[node].conn;
      var ps := w.net.Pushes(have);
      PushesOk(w, have);
      var k := SendAllQueues(w.net.conns[c], ps);
      PrefixQueueOk(w.hist, w.net.conns[c].Queue(), ps, k);
    }
  }

  lemma CaughtUpKeeps(w: World, node: NodeId, have: nat)
    requires Truth(w) && Started(w)
    ensures Truth(CaughtUp(w, node, have)) && Started(CaughtUp(w, node, have))
  {
    CaughtUpConns(w, node, have);
  }

  // ---------- every step keeps the truth ----------

  function SeatedWorld(w: World, i: nat): World
    requires w.net.Valid() && i in w.insts && w.nextConn !in w.net.conns
  {
    w.(net := w.net.Seated(w.insts[i].node, w.nextConn, i),
       insts := w.insts[i := w.insts[i].(conn := Some(w.nextConn))],
       nextConn := w.nextConn + 1)
  }

  function Retired(w: World, c: ConnId): World
    requires w.net.Valid() && c in w.net.conns
  {
    w.(net := w.net.Retire(c))
  }

  /** A connection is taken into service in four moves. */
  lemma ConnectIs(w: World, i: nat, content: Snapshot, nowMs: nat, grace: bool)
    requires w.net.Valid() && Enabled(w, Connect(i, content, nowMs, grace))
    ensures var node, had := w.insts[i].node, w.net.sessions;
            var told := Published(SeatedWorld(w, i), content, nowMs);
            var caught := if grace then told else CaughtUp(told, node, w.insts[i].copy.gen);
            Step(w, Connect(i, content, nowMs, grace)) == if node in had then Retired(caught, had[node].conn)
              else caught
  {
  }

  lemma SeatedConns(w: World, i: nat)
    requires ConnsOk(w) && i in w.insts && w.nextConn !in w.net.conns
    ensures ConnsOk(SeatedWorld(w, i))
  {
    var v := SeatedWorld(w, i);
    assert v.net.conns[w.nextConn].Queue() == [];
    forall c | c in v.net.conns
      ensures c < v.nextConn && ConnOk(v, v.net.conns[c])
    {
      if c != w.nextConn { assert ConnOk(w, w.net.conns[c]); }
    }
  }

  lemma SeatedKeeps(w: World, i: nat)
    requires Truth(w) && i in w.insts && w.nextConn !in w.net.conns
    ensures Truth(SeatedWorld(w, i))
  {
    SeatedConns(w, i);
    SameInst(w.pubs, w.insts, i, w.insts[i].(conn := Some(w.nextConn)));
  }

  lemma SameInst(pubs: map<nat, Snapshot>, insts: map<nat, Inst>, i: nat, m: Inst)
    requires InstsOk(pubs, insts) && i in insts && m.copy == insts[i].copy && m.said == insts[i].said
    ensures InstsOk(pubs, insts[i := m])
  {
    assert InstOk(pubs, insts[i]);
  }

  /** Changing one connection's queue to another true queue. */
  lemma SetConnKeeps(w: World, c: ConnId, conn: Conn)
    requires Truth(w) && c in w.net.conns && conn.inst == w.net.conns[c].inst && QueueOk(w.hist, conn.Queue())
    ensures Truth(SetConn(w, c, conn))
    ensures Started(w) ==> Started(SetConn(w, c, conn))
  {
    var v := SetConn(w, c, conn);
    assert ConnOk(w, w.net.conns[c]);
    forall x | x in v.net.conns
      ensures x < v.nextConn && ConnOk(v, v.net.conns[x])
    {
      if x != c { assert ConnOk(w, w.net.conns[x]); }
    }
  }

  lemma SetInstKeeps(w: World, i: nat, m: Inst)
    requires Truth(w) && InstOk(w.pubs, m)
    ensures Truth(SetInst(w, i, m))
    ensures Started(w) ==> Started(SetInst(w, i, m))
  {
    var v := SetInst(w, i, m);
    forall x | x in v.net.conns
      ensures ConnOk(v, v.net.conns[x])
    {
      assert ConnOk(w, w.net.conns[x]);
    }
  }

  lemma OfferedOk(hist: seq<Snapshot>, c: Conn, p: Push)
    requires QueueOk(hist, c.Queue()) && PushOk(hist, p)
    ensures QueueOk(hist, Offer(c, p).Queue())
  {
    assert Offer(c, p).Queue() == if c.Room() then c.Queue() + [p] else c.Queue();
  }

  lemma ConnectKeeps(w: World, i: nat, content: Snapshot, nowMs: nat, grace: bool)
    requires Truth(w) && Enabled(w, Connect(i, content, nowMs, grace))
    ensures var v := Step(w, Connect(i, content, nowMs, grace));
            Truth(v) && Started(v)
  {
    ConnectIs(w, i, content, nowMs, grace);
    var node, had := w.insts[i].node, w.net.sessions;
    SeatedKeeps(w, i);
    var told := Published(SeatedWorld(w, i), content, nowMs);
    PublishedKeeps(SeatedWorld(w, i), content, nowMs);
    PublishedSomething(SeatedWorld(w, i), content, nowMs);
    var caught := if grace then told else CaughtUp(told, node, w.insts[i].copy.gen);
    if !grace {
      CaughtUpKeeps(told, node, w.insts[i].copy.gen);
    }
    if node in had {
      var c := had[node].conn;
      OfferedOk(caught.hist, caught.net.conns[c], Close);
      assert Superseded(caught.net.conns[c]).Queue() == Offer(caught.net.conns[c], Close).Queue();
      SetConnKeeps(caught, c, Superseded(caught.net.conns[c]));
    }
  }

  /** A received push takes a true copy to a true copy. */
  lemma ReceivedIsHeld(w: World, copy: Snapshot, p: Push)
    requires HistOk(w) && PubsOk(w) && Held(w.pubs, copy) && PushOk(w.hist, p)
    ensures var r := Received(copy, p); r.Ok? ==> Held(w.pubs, r.value) && copy.gen <= r.value.gen
  {
    match p
    case PushDelta(d) =>
      var k :| 0 <= k < |w.hist| - 1 && d == Diff(w.hist[k], w.hist[k + 1]);
      DeltaIsHeld(w, copy, k);
    case PushSnapshot(s) =>
      var k :| 1 <= k < |w.hist| && s == w.hist[k];
      SnapshotIsHeld(w, copy, k);
    case _ =>
  }

  lemma SnapshotIsHeld(w: World, copy: Snapshot, k: nat)
    requires HistOk(w) && PubsOk(w) && Held(w.pubs, copy) && 1 <= k < |w.hist|
    ensures var r := Installed(copy, w.hist[k]); Held(w.pubs, r) && copy.gen <= r.gen
    ensures Installed(copy, w.hist[k]) == if w.hist[k].gen < copy.gen then copy else w.hist[k]
  {
    assert w.hist[k].gen in w.pubs && IsNormal(w.hist[k]);
  }

  lemma DeltaIsHeld(w: World, copy: Snapshot, k: nat)
    requires HistOk(w) && PubsOk(w) && Held(w.pubs, copy) && k < |w.hist| - 1
    ensures var r := Applied(copy, Diff(w.hist[k], w.hist[k + 1]));
            r.Ok? ==> Held(w.pubs, r.value) && r.value == if w.hist[k + 1].gen <= copy.gen then copy else w.hist[k + 1]
  {
    if copy.gen == w.hist[k].gen {
      BaseIsHeld(w, copy, k);
      DeltaMoves(w.hist[k], w.hist[k + 1]);
      assert w.hist[k + 1].gen in w.pubs;
    }
  }

  /** A holder of a generation of this history holds exactly that view of it. */
  lemma BaseIsHeld(w: World, copy: Snapshot, k: nat)
    requires HistOk(w) && PubsOk(w) && Held(w.pubs, copy) && k < |w.hist| && copy.gen == w.hist[k].gen
    ensures k >= 1 && copy == w.hist[k]
  {
    assert w.hist[0].gen <= copy.gen && InHist(w.hist, copy.gen);
    var j :| 1 <= j < |w.hist| && w.hist[j].gen == copy.gen;
    OnePlace(w.hist, j, k);
  }

  lemma OnePlace(hist: seq<Snapshot>, j: nat, k: nat)
    requires Advances(hist) && j < |hist| && k < |hist| && hist[j].gen == hist[k].gen
    ensures j == k
  {
  }

  lemma SaidKeeps(w: World, m: Inst)
    requires |w.hist| >= 1 && PubsOk(w) && InstOk(w.pubs, m)
    ensures InstOk(w.pubs, m.(said := m.said + {ReportOf(m.copy)}))
  {
    assert ReportOk(w.pubs, ReportOf(m.copy));
  }

  lemma ReadKeeps(w: World, m: Inst, p: Push)
    requires HistOk(w) && PubsOk(w) && InstOk(w.pubs, m) && PushOk(w.hist, p)
    ensures InstOk(w.pubs, Read(m, p))
  {
    ReceivedIsHeld(w, m.copy, p);
    SaidKeeps(w, m);
  }

  function Told(w: World, publish: Option<(Snapshot, nat)>): World
    requires w.net.Valid()
  {
    if publish.Some? then Published(w, publish.value.0, publish.value.1) else w
  }

  /** Writing down a minted generation and queueing a catch-up do not disturb each other. */
  lemma LoggedCatchUp(w: World, net: NetView, node: NodeId, have: nat)
    requires net.Valid()
    ensures Logged(w, net.CatchUp(node, have)) == Logged(w, net).(net := net.CatchUp(node, have))
  {
  }

  lemma ToldIs(w: World, publish: Option<(Snapshot, nat)>)
    requires w.net.Valid()
    ensures var net := if publish.Some? then w.net.Publish(publish.value.0, publish.value.1) else w.net;
            Told(w, publish) == Logged(w, net)
  {
  }

  /** A heartbeat publishes what it changed, then catches its session up if it is not current. */
  lemma BeatIs(w: World, i: nat, r: Report, publish: Option<(Snapshot, nat)>, grace: bool)
    requires w.net.Valid() && Enabled(w, Beat(i, r, publish, grace))
    ensures var told := Told(w, publish);
            Step(w, Beat(i, r, publish, grace)) ==
            if grace then told
            else if r.gen != told.net.dir.gen then CaughtUp(told, w.insts[i].node, r.gen)
            else if r.content != Digest(told.net.dir.published) then CaughtUp(told, w.insts[i].node, 0)
            else told
  {
    var net := if publish.Some? then w.net.Publish(publish.value.0, publish.value.1) else w.net;
    ToldIs(w, publish);
    LoggedCatchUp(w, net, w.insts[i].node, r.gen);
    LoggedCatchUp(w, net, w.insts[i].node, 0);
  }

  lemma ToldKeeps(w: World, publish: Option<(Snapshot, nat)>)
    requires Truth(w) && Started(w)
    ensures Truth(Told(w, publish)) && Started(Told(w, publish))
  {
    if publish.Some? {
      PublishedKeeps(w, publish.value.0, publish.value.1);
      PublishedExtends(w, publish.value.0, publish.value.1);
    }
  }

  lemma BeatKeeps(w: World, i: nat, r: Report, publish: Option<(Snapshot, nat)>, grace: bool)
    requires Truth(w) && Started(w) && Enabled(w, Beat(i, r, publish, grace))
    ensures var v := Step(w, Beat(i, r, publish, grace));
            Truth(v) && Started(v)
  {
    BeatIs(w, i, r, publish, grace);
    ToldKeeps(w, publish);
    CaughtUpKeeps(Told(w, publish), w.insts[i].node, r.gen);
    CaughtUpKeeps(Told(w, publish), w.insts[i].node, 0);
  }

  function Unseated(w: World, node: NodeId): World {
    w.(net := w.net.(sessions := w.net.sessions - {node}))
  }

  lemma UnseatedKeeps(w: World, node: NodeId)
    requires Truth(w) && Started(w)
    ensures Truth(Unseated(w, node)) && Started(Unseated(w, node))
  {
    var v := Unseated(w, node);
    forall x | x in v.net.conns
      ensures ConnOk(v, v.net.conns[x])
    {
      assert ConnOk(w, w.net.conns[x]);
    }
  }

  lemma TeardownIs(w: World, c: ConnId, content: Snapshot, nowMs: nat)
    requires w.net.Valid() && Enabled(w, Teardown(c, content, nowMs))
    ensures var node := w.insts[w.net.conns[c].inst].node;
            Step(w, Teardown(c, content, nowMs)) ==
            if node in w.net.sessions && w.net.sessions[node].conn == c
              then Published(Unseated(w, node), content, nowMs) else w
  {
  }

  lemma TeardownKeeps(w: World, node: NodeId, content: Snapshot, nowMs: nat)
    requires Truth(w) && Started(w)
    ensures var v := Published(Unseated(w, node), content, nowMs); Truth(v) && Started(v)
  {
    UnseatedKeeps(w, node);
    ToldKeeps(Unseated(w, node), Some((content, nowMs)));
  }

  lemma FreshFits(gen: nat)
    requires gen > 0
    ensures HistFits(FreshDir(gen), [EMPTY.(gen := gen)])
  {
    assert IsNormal(EMPTY.(gen := gen));
  }

  lemma CrashPubs(w: World, gen: nat)
    requires |w.hist| >= 1 && PubsOk(w) && gen >= w.net.mark
    ensures PubsFit([EMPTY.(gen := gen)], w.pubs, w.net.mark)
  {
    assert forall g <- w.pubs :: 0 < g < w.net.mark;
  }

  lemma DisconnectedOk(pubs: map<nat, Snapshot>, m: Inst)
    requires InstOk(pubs, m)
    ensures InstOk(pubs, Disconnected(m))
  {
  }

  lemma CrashInsts(pubs: map<nat, Snapshot>, insts: map<nat, Inst>)
    requires InstsOk(pubs, insts)
    ensures InstsOk(pubs, map i | i in insts :: Disconnected(insts[i]))
  {
    forall i | i in insts
      ensures InstOk(pubs, Disconnected(insts[i]))
    {
      assert InstOk(pubs, insts[i]);
      DisconnectedOk(pubs, insts[i]);
    }
  }

  lemma CrashKeeps(w: World, nowMs: nat)
    requires Truth(w)
    ensures Truth(Step(w, Crash(nowMs))) && Started(Step(w, Crash(nowMs)))
  {
    var gen := InitialGen(w.net.mark, nowMs);
    FreshFits(gen);
    CrashPubs(w, gen);
    CrashInsts(w.pubs, w.insts);
  }

  lemma RawKeeps(w: World, c: ConnId)
    requires Truth(w) && Started(w) && Enabled(w, SendRaw(c))
    ensures Truth(Step(w, SendRaw(c))) && Started(Step(w, SendRaw(c)))
  {
    var conn := w.net.conns[c];
    assert ConnOk(w, conn);
    OfferedOk(w.hist, conn, Raw);
    SetConnKeeps(w, c, Offer(conn, Raw));
  }

  lemma WriteKeeps(w: World, c: ConnId)
    requires Truth(w) && Started(w) && Enabled(w, Write(c))
    ensures Truth(Step(w, Write(c))) && Started(Step(w, Write(c)))
  {
    var conn := w.net.conns[c];
    assert ConnOk(w, conn);
    var sent := conn.(wire := conn.wire + [conn.chan[0]], chan := conn.chan[1..]);
    assert sent.Queue() == conn.Queue();
    SetConnKeeps(w, c, sent);
  }

  lemma WriterGoneKeeps(w: World, c: ConnId)
    requires Truth(w) && Started(w) && Enabled(w, WriterGone(c))
    ensures Truth(Step(w, WriterGone(c))) && Started(Step(w, WriterGone(c)))
  {
    var conn := w.net.conns[c];
    assert ConnOk(w, conn);
    assert conn.(up := false).Queue() == conn.Queue();
    SetConnKeeps(w, c, conn.(up := false));
  }

  lemma DeliverKeeps(w: World, c: ConnId)
    requires Truth(w) && Started(w) && Enabled(w, Deliver(c))
    ensures Truth(Step(w, Deliver(c))) && Started(Step(w, Deliver(c)))
  {
    var conn := w.net.conns[c];
    assert ConnOk(w, conn);
    var rest := conn.(wire := conn.wire[1..]);
    assert conn.Queue() == [conn.wire[0]] + rest.Queue();
    SetConnKeeps(w, c, rest);
    ReadKeeps(w, w.insts[conn.inst], conn.wire[0]);
    SetInstKeeps(SetConn(w, c, rest), conn.inst, Read(w.insts[conn.inst], conn.wire[0]));
  }

  lemma BootKeeps(w: World, i: nat, node: NodeId)
    requires Truth(w) && Started(w) && Enabled(w, Boot(i, node))
    ensures Truth(Step(w, Boot(i, node))) && Started(Step(w, Boot(i, node)))
  {
    SetInstKeeps(w, i, Inst(node, EMPTY, None, {}));
  }

  lemma SayKeeps(w: World, i: nat)
    requires Truth(w) && Started(w) && Enabled(w, Say(i))
    ensures Truth(Step(w, Say(i))) && Started(Step(w, Say(i)))
  {
    assert InstOk(w.pubs, w.insts[i]);
    SaidKeeps(w, w.insts[i]);
    SetInstKeeps(w, i, w.insts[i].(said := w.insts[i].said + {ReportOf(w.insts[i].copy)}));
  }

  lemma HangupKeeps(w: World, i: nat)
    requires Truth(w) && Started(w) && i in w.insts
    ensures var v := SetInst(w, i, Disconnected(w.insts[i])); Truth(v) && Started(v)
  {
    assert InstOk(w.pubs, w.insts[i]);
    DisconnectedOk(w.pubs, w.insts[i]);
    SetInstKeeps(w, i, Disconnected(w.insts[i]));
  }

  lemma AskKeeps(w: World, i: nat, r: Report, grace: bool)
    requires Truth(w) && Started(w) && Enabled(w, Ask(i, r, grace))
    ensures Truth(Step(w, Ask(i, r, grace))) && Started(Step(w, Ask(i, r, grace)))
  {
    CaughtUpKeeps(w, w.insts[i].node, r.gen);
  }

  lemma PublishKeeps(w: World, content: Snapshot, nowMs: nat)
    requires Truth(w) && Started(w) && Enabled(w, Publish(content, nowMs))
    ensures Truth(Step(w, Publish(content, nowMs))) && Started(Step(w, Publish(content, nowMs)))
  {
    ToldKeeps(w, Some((content, nowMs)));
  }

  lemma StepKeepsTruth(w: World, e: Event)
    requires Truth(w) && Started(w) && Enabled(w, e)
    ensures Truth(Step(w, e)) && Started(Step(w, e))
  {
    match e
    case Boot(i, node) => BootKeeps(w, i, node);
    case Connect(i, content, nowMs, grace) => ConnectKeeps(w, i, content, nowMs, grace);
    case Publish(content, nowMs) => PublishKeeps(w, content, nowMs);
    case Say(i) => SayKeeps(w, i);
    case Beat(i, r, publish, grace) => BeatKeeps(w, i, r, publish, grace);
    case Ask(i, r, grace) => AskKeeps(w, i, r, grace);
    case Deliver(c) => DeliverKeeps(w, c);
    case Hangup(i) => HangupKeeps(w, i);
    case Teardown(c, content, nowMs) =>
      TeardownIs(w, c, content, nowMs);
      TeardownKeeps(w, w.insts[w.net.conns[c].inst].node, content, nowMs);
    case Crash(nowMs) => CrashKeeps(w, nowMs);
    case SendRaw(c) => RawKeeps(w, c);
    case Write(c) => WriteKeeps(w, c);
    case WriterGone(c) => WriterGoneKeeps(w, c);
  }

  // ---------- whole runs ----------

  ghost predicate Follows(w: World, v: World) {
    w.net.Valid() && exists e: Event :: Enabled(w, e) && v == Step(w, e)
  }

  ghost predicate IsRun(run: seq<World>) {
    && |run| > 0 && (exists nowMs: nat :: run[0] == Init(nowMs))
    && forall k :: 0 < k < |run| ==> Follows(run[k - 1], run[k])
  }

  lemma InitIsTrue(nowMs: nat)
    ensures Truth(Init(nowMs)) && Started(Init(nowMs))
  {
    FreshFits(InitialGen(0, nowMs));
  }

  lemma FollowingKeeps(w: World, v: World)
    requires Truth(w) && Started(w) && Follows(w, v)
    ensures Truth(v) && Started(v)
  {
    var e: Event :| Enabled(w, e) && v == Step(w, e);
    StepKeepsTruth(w, e);
  }

  lemma {:induction false} RunKeepsTruth(run: seq<World>, k: nat)
    requires IsRun(run) && k < |run|
    ensures Truth(run[k]) && Started(run[k])
  {
    if k == 0 {
      var nowMs: nat :| run[0] == Init(nowMs);
      InitIsTrue(nowMs);
    } else {
      RunKeepsTruth(run, k - 1);
      FollowingKeeps(run[k - 1], run[k]);
    }
  }

  // ---------- every published view differs from the one before ----------

  ghost predicate DiffersAt(hist: seq<Snapshot>, k: nat)
    requires 0 < k < |hist|
  {
    !SameContent(hist[k - 1], hist[k])
  }

  ghost predicate Differ(hist: seq<Snapshot>) {
    forall k {:trigger DiffersAt(hist, k)} :: 0 < k < |hist| ==> DiffersAt(hist, k)
  }

  lemma PublishedDiffers(w: World, content: Snapshot, nowMs: nat)
    requires HistOk(w) && w.net.Valid() && Differ(w.hist)
    ensures Differ(Published(w, content, nowMs).hist)
  {
    PublishedIffChanged(w, content, nowMs);
    LastIsPublished(w);
    var v := Published(w, content, nowMs);
    forall k | 0 < k < |v.hist|
      ensures DiffersAt(v.hist, k)
    {
      if k < |w.hist| { assert DiffersAt(w.hist, k); }
    }
  }

  lemma ConnectDiffers(w: World, i: nat, content: Snapshot, nowMs: nat, grace: bool)
    requires Truth(w) && Differ(w.hist) && Enabled(w, Connect(i, content, nowMs, grace))
    ensures Differ(Step(w, Connect(i, content, nowMs, grace)).hist)
  {
    ConnectIs(w, i, content, nowMs, grace);
    SeatedKeeps(w, i);
    PublishedDiffers(SeatedWorld(w, i), content, nowMs);
  }

  lemma BeatDiffers(w: World, i: nat, r: Report, publish: Option<(Snapshot, nat)>, grace: bool)
    requires Truth(w) && Differ(w.hist) && Enabled(w, Beat(i, r, publish, grace))
    ensures Differ(Step(w, Beat(i, r, publish, grace)).hist)
  {
    BeatIs(w, i, r, publish, grace);
    if publish.Some? {
      PublishedDiffers(w, publish.value.0, publish.value.1);
    }
  }

  lemma TeardownDiffers(w: World, c: ConnId, content: Snapshot, nowMs: nat)
    requires Truth(w) && Started(w) && Differ(w.hist) && Enabled(w, Teardown(c, content, nowMs))
    ensures Differ(Step(w, Teardown(c, content, nowMs)).hist)
  {
    TeardownIs(w, c, content, nowMs);
    var node := w.insts[w.net.conns[c].inst].node;
    UnseatedKeeps(w, node);
    PublishedDiffers(Unseated(w, node), content, nowMs);
  }

  lemma StepDiffers(w: World, e: Event)
    requires Truth(w) && Started(w) && Differ(w.hist) && Enabled(w, e)
    ensures Differ(Step(w, e).hist)
  {
    match e
    case Connect(i, content, nowMs, grace) => ConnectDiffers(w, i, content, nowMs, grace);
    case Publish(content, nowMs) => PublishedDiffers(w, content, nowMs);
    case Beat(i, r, publish, grace) => BeatDiffers(w, i, r, publish, grace);
    case Teardown(c, content, nowMs) => TeardownDiffers(w, c, content, nowMs);
    case _ =>
  }

  lemma {:induction false} RunDiffers(run: seq<World>, k: nat)
    requires IsRun(run) && k < |run|
    ensures Differ(run[k].hist)
  {
    if k > 0 {
      RunDiffers(run, k - 1);
      RunKeepsTruth(run, k - 1);
      assert Follows(run[k - 1], run[k]);
      var e: Event :| Enabled(run[k - 1], e) && run[k] == Step(run[k - 1], e);
      StepDiffers(run[k - 1], e);
    }
  }

  /** In every run each view a coordinator process published means something else than the one before it. */
  lemma SuccessiveViewsDiffer(run: seq<World>, k: nat, i: nat)
    requires IsRun(run) && k < |run| && 0 < i < |run[k].hist|
    ensures MeaningOf(run[k].hist[i - 1].(gen := 0)) != MeaningOf(run[k].hist[i].(gen := 0))
  {
    RunDiffers(run, k);
    assert DiffersAt(run[k].hist, i);
  }

  /** A true report at the coordinator's generation has the coordinator's content. */
  lemma ReportsAgree(w: World, r: Report)
    requires HistOk(w) && PubsOk(w) && ReportOk(w.pubs, r) && r.gen == w.net.dir.gen
    ensures r.content == Digest(w.net.dir.published)
  {
    LastIsPublished(w);
    var n := |w.hist| - 1;
    assert w.hist[0].gen <= w.hist[n].gen && InHist(w.hist, r.gen);
    var k :| 1 <= k < |w.hist| && w.hist[k].gen == r.gen;
    OnePlace(w.hist, k, n);
    assert w.hist[k].gen in w.pubs;
  }

  /**
   In every run, whatever crashes and restarts, a member's copy is exactly what was published at
   its generation, and no report a member ever sent disagrees with the coordinator's digest at
   the coordinator's generation.
   */
  lemma CopiesAreWhatWasPublished(run: seq<World>, k: nat)
    requires IsRun(run) && k < |run|
    ensures forall i <- run[k].insts :: Held(run[k].pubs, run[k].insts[i].copy)
    ensures forall i <- run[k].insts, r <- run[k].insts[i].said ::
              r.gen == run[k].net.dir.gen ==> r.content == Digest(run[k].net.dir.published)
  {
    RunKeepsTruth(run, k);
    var w := run[k];
    forall i, r | i in w.insts && r in w.insts[i].said && r.gen == w.net.dir.gen
      ensures r.content == Digest(w.net.dir.published)
    {
      assert InstOk(w.pubs, w.insts[i]);
      ReportsAgree(w, r);
    }
    forall i | i in w.insts
      ensures Held(w.pubs, w.insts[i].copy)
    {
      assert InstOk(w.pubs, w.insts[i]);
    }
  }

  /**
   A heartbeat compares its report with what the coordinator holds after the heartbeat's own
   publish: at the same generation the content is the same, in every run.
   */
  lemma HeartbeatsNeverDisagree(run: seq<World>, k: nat, i: nat, r: Report, publish: Option<(Snapshot, nat)>)
    requires IsRun(run) && k < |run| && run[k].net.Valid() && Enabled(run[k], Beat(i, r, publish, false))
    ensures var told := Told(run[k], publish).net.dir;
            r.gen == told.gen ==> r.content == Digest(told.published)
  {
    RunKeepsTruth(run, k);
    ToldKeeps(run[k], publish);
    var told := Told(run[k], publish);
    PublishedInsts(run[k], publish);
    assert InstOk(told.pubs, told.insts[i]);
    if r.gen == told.net.dir.gen {
      ReportsAgree(told, r);
    }
  }

  lemma PublishedInsts(w: World, publish: Option<(Snapshot, nat)>)
    requires HistOk(w) && w.net.Valid()
    ensures Told(w, publish).insts == w.insts
  {
    if publish.Some? {
      PublishedExtends(w, publish.value.0, publish.value.1);
    }
  }

  /** A restarted coordinator starts past everything ever handed out, and not before the clock. */
  lemma RestartIsAhead(run: seq<World>, k: nat, nowMs: nat)
    requires IsRun(run) && k < |run| && run[k].net.Valid()
    ensures var gen := Step(run[k], Crash(nowMs)).net.dir.gen;
            gen >= nowMs && forall g <- run[k].pubs :: g < gen
  {
    RunKeepsTruth(run, k);
  }

  /** Generations handed out only grow, across any number of restarts and clock moves. */
  lemma GenerationsNeverRepeat(run: seq<World>, k: nat)
    requires IsRun(run) && k < |run|
    ensures forall a, b :: 0 <= a < b < |run[k].minted| ==> run[k].minted[a] < run[k].minted[b]
    ensures forall g <- run[k].pubs :: g in run[k].minted && run[k].pubs[g].gen == g
  {
    RunKeepsTruth(run, k);
  }
}

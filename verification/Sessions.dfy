/**
 Per-peer sessions across rekeys and the table that holds them: the value-level
 specification (`PeerSessions`, `Table`) and the mutable `SessionTable` proved against it.
 */
module Sessions {
  import opened Base
  import opened Replay
  import opened Seal

  const PENDING_LIMIT: nat := 64
  const KEEPALIVE_SECS: nat := 5
  const UNANSWERED_REKEY_SECS: nat := 10

  predicate Ready(s: Option<Session>) {
    s.Some? && s.value.IsReady()
  }

  datatype PeerSessions = PeerSessions(
    current: Option<Session>,
    next: Option<Session>,
    previous: Option<(Session, nat)>,
    awaitingSince: Option<nat>,
    lastSent: nat)
  {
    predicate IsEmpty() {
      current.None? && next.None? && previous.None?
    }

    /** Every session held, whatever its slot. */
    predicate Holds(s: Session) {
      current == Some(s) || next == Some(s) || (previous.Some? && previous.value.0 == s)
    }

    /** The waiting session takes over; the one it replaces, if ready, only receives from then on. */
    function Promote(now: nat): PeerSessions {
      if next.None? then this else
      this.(
        current := next,
        next := None,
        previous := if Ready(current) then Some((current.value, now)) else previous,
        awaitingSince := None)
    }

    /** Our own rekey initiation, not yet answered. */
    predicate NextInFlight() {
      next.Some? && next.value.initiator && !next.value.IsReady()
    }

    /** Our own first handshake, not yet answered. */
    predicate CurrentInFlight() {
      current.Some? && current.value.initiator && !current.value.IsReady()
    }

    function InstallResponder(s: Session): PeerSessions {
      if Ready(current)
      then this.(next := Some(s), awaitingSince := None)
      else this.(current := Some(s), awaitingSince := None)
    }

    predicate RekeyDue(now: nat) {
      && Ready(current) && next.None?
      && (|| (awaitingSince.Some? && Monus(now, awaitingSince.value) >= UNANSWERED_REKEY_SECS)
          || current.value.NeedsRekey(
               if current.value.initiator then now else Monus(now, RESPONDER_REKEY_DELAY_SECS)))
    }

    function NoteSent(now: nat): PeerSessions {
      this.(awaitingSince := if awaitingSince.Some? then awaitingSince else Some(now), lastSent := now)
    }

    predicate KeepaliveDue(now: nat) {
      Ready(current) && Monus(now, lastSent) >= KEEPALIVE_SECS
    }

    predicate PreviousInGrace(now: nat) {
      previous.Some? && Monus(now, previous.value.1) < PREVIOUS_GRACE_SECS
    }

    /** The slots in the order they are tried; the oldest only within its grace. */
    function UnsealAny(ctr: nat, ct: Cipher, now: nat): Result<(PeerSessions, Packet), SealError> {
      var c := if Ready(current) then current.value.Unseal(ctr, ct) else Err(NoSession);
      if c.Ok? then Ok((this.(current := Some(c.value.0)), c.value.1)) else
      var n := if Ready(next) then next.value.Unseal(ctr, ct) else Err(NoSession);
      if n.Ok? then Ok((this.(next := Some(n.value.0)).Promote(now), n.value.1)) else
      var o := if PreviousInGrace(now) then previous.value.0.Unseal(ctr, ct) else Err(NoSession);
      if o.Ok? then Ok((this.(previous := Some((o.value.0, previous.value.1))), o.value.1)) else
      Err(if c.error == Replayed || n.error == Replayed || o.error == Replayed then Replayed
          else if Ready(current) then c.error
          else if Ready(next) then n.error
          else if PreviousInGrace(now) then o.error
          else NoSession)
    }

    function Unseal(ctr: nat, ct: Cipher, now: nat): Result<(PeerSessions, Packet), SealError> {
      match UnsealAny(ctr, ct, now)
      case Ok((p, v)) => Ok((p.(awaitingSince := None), v))
      case Err(e) => Err(e)
    }

    predicate TimesOut(now: nat) {
      || (current.Some? && current.value.IsStaleHandshake(now))
      || (next.Some? && next.value.IsStaleHandshake(now))
    }

    /** The periodic sweep over one peer. */
    function Expire(now: nat): PeerSessions {
      var c := if current.Some? &&
        ((current.value.IsReady() && current.value.MustExpire(now)) || current.value.IsStaleHandshake(now))
               then None else current;
      var n := if next.Some? &&
        (next.value.IsStaleHandshake(now) || (next.value.IsReady() && next.value.MustExpire(now)))
               then None else next;
      var p := this.(current := c, next := n);
      var q := if c.None? && Ready(n) then p.Promote(now) else p;
      if q.previous.Some? && Monus(now, q.previous.value.1) >= PREVIOUS_GRACE_SECS then q.(previous := None) else q
    }

    /** Drop every session that does not authenticate to `want`. */
    function Keep(want: Option<StaticKey>): PeerSessions {
      this.(
        current := if current.Some? && want == Some(current.value.PeerStatic()) then current else None,
        next := if next.Some? && want == Some(next.value.PeerStatic()) then next else None,
        previous := if previous.Some? && want == Some(previous.value.0.PeerStatic()) then previous else None)
    }

    /** Did `Keep` drop anything? */
    predicate Loses(want: Option<StaticKey>) {
      (current.Some?, next.Some?, previous.Some?)
      != (Keep(want).current.Some?, Keep(want).next.Some?, Keep(want).previous.Some?)
    }
  }

  const NO_SESSIONS := PeerSessions(None, None, None, None, 0)

  type Published = map<NodeId, Option<StaticKey>>

  /** The usable key `published` holds for `id`, if any. */
  function KeyIn(published: Published, id: NodeId): Option<StaticKey> {
    if id in published then published[id] else None
  }

  datatype Table = Table(
    sessions: map<NodeId, PeerSessions>,
    pending: map<NodeId, seq<Packet>>,
    marks: map<(NodeId, StaticKey), Tai64n>)
  {
    /** The peer's entry, defaulted as `entry().or_default()` would. */
    function Of(peer: NodeId): PeerSessions {
      if peer in sessions then sessions[peer] else NO_SESSIONS
    }

    function With(peer: NodeId, p: PeerSessions): Table {
      this.(sessions := sessions[peer := p])
    }

    predicate IsReady(peer: NodeId) { Ready(Of(peer).current) }

    predicate Has(peer: NodeId) { Of(peer).current.Some? || Of(peer).next.Some? }

    function Queued(peer: NodeId): seq<Packet> {
      if peer in pending then pending[peer] else []
    }

    /** One more packet waits for the session; a full queue gives up its oldest. */
    function Queue(peer: NodeId, pkt: Packet): Table {
      var q := Queued(peer);
      this.(pending := pending[peer := (if |q| >= PENDING_LIMIT then q[1..] else q) + [pkt]])
    }

    function QueueAll(peer: NodeId, pkts: seq<Packet>): Table
      decreases |pkts|
    {
      if pkts == [] then this else Queue(peer, pkts[0]).QueueAll(peer, pkts[1..])
    }

    function DropPending(peer: NodeId): Table { this.(pending := pending - {peer}) }

    function Remove(peer: NodeId): Table {
      this.(sessions := sessions - {peer}, pending := pending - {peer})
    }

    function NoteSent(peer: NodeId, now: nat): Table {
      if peer in sessions then With(peer, sessions[peer].NoteSent(now)) else this
    }

    predicate AcceptsTs(peer: NodeId, key: StaticKey, ts: Tai64n) {
      (peer, key) in marks ==> marks[(peer, key)].Before(ts)
    }

    function NoteTs(peer: NodeId, key: StaticKey, ts: Tai64n): Table {
      this.(marks := marks[(peer, key) := ts])
    }

    function ForgetTs(peer: NodeId): Table {
      this.(marks := map k | k in marks && k.0 != peer :: marks[k])
    }

    function Initiated(peer: NodeId, s: Session): Table {
      With(peer, Of(peer).(current := Some(s), next := None, awaitingSince := None))
    }

    function Rekeying(peer: NodeId, s: Session): Table {
      With(peer, Of(peer).(next := Some(s)))
    }

    function Expire(now: nat): Table {
      this.(sessions := map id | id in sessions && !sessions[id].Expire(now).IsEmpty() :: sessions[id].Expire(now))
    }

    function TimedOut(now: nat): set<NodeId> {
      set id | id in sessions && sessions[id].TimesOut(now)
    }

    function Dropped(published: Published): set<NodeId> {
      set id | id in sessions && sessions[id].Loses(KeyIn(published, id))
    }

    function SyncView(published: Published): Table {
      var kept := map id | id in sessions && !sessions[id].Keep(KeyIn(published, id)).IsEmpty()
                    :: sessions[id].Keep(KeyIn(published, id));
      Table(
        kept,
        map id | id in pending && KeyIn(published, id).Some? &&
          (id in kept || id !in Dropped(published)) :: pending[id],
        map k | k in marks && KeyIn(published, k.0) == Some(k.1) :: marks[k])
    }
  }

  const EMPTY_TABLE := Table(map[], map[], map[])

  // ---------- what the receiver's trial order can and cannot do ----------

  /** Some slot the receiver tries opens the frame and has not seen its counter. */
  ghost predicate Openable(p: PeerSessions, ctr: nat, ct: Cipher, now: nat) {
    || (Ready(p.current) && p.current.value.Unseal(ctr, ct).Ok?)
    || (Ready(p.next) && p.next.value.Unseal(ctr, ct).Ok?)
    || (p.PreviousInGrace(now) && p.previous.value.0.Unseal(ctr, ct).Ok?)
  }

  /** Trial order never decides whether a frame opens, and never damages another slot. */
  lemma TrialOrderIsHarmless(p: PeerSessions, ctr: nat, ct: Cipher, now: nat)
    ensures p.Unseal(ctr, ct, now).Ok? <==> Openable(p, ctr, ct, now)
    ensures p.Unseal(ctr, ct, now).Ok? ==>
              var (q, v) := p.Unseal(ctr, ct, now).value;
              && ct.Sealed? && ct.payload == v && ct.nonce == ctr
  {
  }

  /** A slot the receiver tries, and whose window refuses the counter. */
  predicate Tried(p: PeerSessions, now: nat, i: nat) {
    (i == 0 && Ready(p.current)) || (i == 1 && Ready(p.next)) || (i == 2 && p.PreviousInGrace(now))
  }

  predicate Refuses(p: PeerSessions, ctr: nat, now: nat) {
    || (Tried(p, now, 0) && !Accepts(p.current.value.seen, ctr))
    || (Tried(p, now, 1) && !Accepts(p.next.value.seen, ctr))
    || (Tried(p, now, 2) && p.previous.value.0.IsReady() && !Accepts(p.previous.value.0.seen, ctr))
  }

  /** Why nothing opened: a window refuses the counter, else no session to try, else a frame not authentic. */
  lemma FailureIsReported(p: PeerSessions, ctr: nat, ct: Cipher, now: nat)
    requires p.Unseal(ctr, ct, now).Err? && (p.previous.Some? ==> p.previous.value.0.IsReady())
    ensures p.Unseal(ctr, ct, now).error ==
            if Refuses(p, ctr, now) then Replayed
            else if Tried(p, now, 0) || Tried(p, now, 1) || Tried(p, now, 2) then BadTag
            else NoSession
  {
  }

  // ---------- the table the program keeps ----------

  class SessionTable {
    var sessions: map<NodeId, PeerSessions>
    var pending: map<NodeId, seq<Packet>>
    var marks: map<(NodeId, StaticKey), Tai64n>

    ghost function State(): Table
      reads this
    {
      Table(sessions, pending, marks)
    }

    constructor ()
      ensures State() == EMPTY_TABLE
    {
      sessions, pending, marks := map[], map[], map[];
    }

    function Entry(peer: NodeId): PeerSessions
      reads this
    {
      if peer in sessions then sessions[peer] else NO_SESSIONS
    }

    method RemovePeer(peer: NodeId)
      modifies this
      ensures State() == old(State()).Remove(peer)
    {
      sessions := sessions - {peer};
      pending := pending - {peer};
    }

    method DropNext(peer: NodeId)
      modifies this`sessions
      ensures State() == if peer in old(sessions) then old(State()).With(peer, old(sessions[peer]).(next := None))
              else old(State())
    {
      if peer in sessions {
        sessions := sessions[peer := sessions[peer].(next := None)];
      }
    }

    method PromotePeer(peer: NodeId, now: nat)
      modifies this`sessions
      ensures State() == if peer in old(sessions) then old(State()).With(peer, old(sessions[peer]).Promote(now))
              else old(State())
    {
      if peer in sessions {
        var p := sessions[peer];
        if p.next.Some? {
          var replacement := p.next;
          p := p.(next := None, awaitingSince := None);
          if Ready(p.current) {
            p := p.(previous := Some((p.current.value, now)));
          }
          p := p.(current := replacement);
        }
        sessions := sessions[peer := p];
      }
    }

    /** Seal on the session we send on. */
    method SealOn(peer: NodeId, payload: Packet) returns (ctr: nat, ct: Cipher)
      requires State().IsReady(peer)
      modifies this`sessions
      ensures var (s, n, c) := old(State()).Of(peer).current.value.Seal(payload);
              && State() == old(State()).With(peer, old(State()).Of(peer).(current := Some(s)))
              && ctr == n && ct == c
    {
      var (s, n, c) := sessions[peer].current.value.Seal(payload);
      sessions := sessions[peer := sessions[peer].(current := Some(s))];
      ctr, ct := n, c;
    }

    /** True when the new session is used at once, false when it waits in `next`. */
    method InstallResponder(peer: NodeId, s: Session) returns (usedNow: bool)
      modifies this`sessions
      ensures State() == old(State()).With(peer, old(State()).Of(peer).InstallResponder(s))
      ensures usedNow <==> !old(State()).IsReady(peer)
    {
      var p := Entry(peer).(awaitingSince := None);
      if Ready(p.current) {
        sessions := sessions[peer := p.(next := Some(s))];
        return false;
      }
      sessions := sessions[peer := p.(current := Some(s))];
      return true;
    }

    method NoteSentTo(peer: NodeId, now: nat)
      modifies this`sessions
      ensures State() == old(State()).NoteSent(peer, now)
    {
      if peer in sessions {
        var p := sessions[peer];
        if p.awaitingSince.None? {
          p := p.(awaitingSince := Some(now));
        }
        sessions := sessions[peer := p.(lastSent := now)];
      }
    }

    method QueuePacket(peer: NodeId, pkt: Packet) returns (roomy: bool)
      modifies this`pending
      ensures State() == old(State()).Queue(peer, pkt)
      ensures roomy <==> |old(State()).Queued(peer)| < PENDING_LIMIT
    {
      var q := if peer in pending then pending[peer] else [];
      roomy := |q| < PENDING_LIMIT;
      if !roomy {
        q := q[1..];
      }
      pending := pending[peer := q + [pkt]];
    }

    method TakePending(peer: NodeId) returns (q: seq<Packet>)
      modifies this`pending
      ensures State() == old(State()).DropPending(peer) && q == old(State()).Queued(peer)
    {
      q := if peer in pending then pending[peer] else [];
      pending := pending - {peer};
    }

    /** Accepted exactly if later than every timestamp accepted for this peer and key before. */
    method AcceptHandshakeTs(peer: NodeId, key: StaticKey, ts: Tai64n) returns (ok: bool)
      modifies this`marks
      ensures ok <==> old(State()).AcceptsTs(peer, key, ts)
      ensures State() == if ok then old(State()).NoteTs(peer, key, ts) else old(State())
    {
      if (peer, key) in marks && !marks[(peer, key)].Before(ts) {
        return false;
      }
      marks := marks[(peer, key) := ts];
      return true;
    }

    method ForgetHandshakeTs(peer: NodeId)
      modifies this`marks
      ensures State() == old(State()).ForgetTs(peer)
    {
      marks := map k | k in marks && k.0 != peer :: marks[k];
    }

    /** Decrypt a frame under whichever of the peer's sessions it was sealed with. */
    method Unseal(peer: NodeId, ctr: nat, ct: Cipher, now: nat) returns (r: Result<Packet, SealError>)
      modifies this`sessions
      ensures peer !in old(sessions) ==> State() == old(State()) && r == Err(NoSession)
      ensures peer in old(sessions) ==>
                match old(sessions[peer]).Unseal(ctr, ct, now)
                case Ok((q, v)) => State() == old(State()).With(peer, q) && r == Ok(v)
                case Err(e) => State() == old(State()) && r == Err(e)
    {
      if peer !in sessions {
        return Err(NoSession);
      }
      var p := sessions[peer];
      var errs: seq<SealError> := [];
      if Ready(p.current) {
        match p.current.value.Unseal(ctr, ct)
        case Ok((s, v)) =>
          sessions := sessions[peer := p.(current := Some(s), awaitingSince := None)];
          return Ok(v);
        case Err(e) => errs := errs + [e];
      }
      if Ready(p.next) {
        match p.next.value.Unseal(ctr, ct)
        case Ok((s, v)) =>
          sessions := sessions[peer := p.(next := Some(s)).Promote(now).(awaitingSince := None)];
          return Ok(v);
        case Err(e) => errs := errs + [e];
      }
      if p.PreviousInGrace(now) {
        match p.previous.value.0.Unseal(ctr, ct)
        case Ok((s, v)) =>
          sessions := sessions[peer := p.(previous := Some((s, p.previous.value.1)), awaitingSince := None)];
          return Ok(v);
        case Err(e) => errs := errs + [e];
      }
      if Replayed in errs {
        return Err(Replayed);
      }
      r := if errs != [] then Err(errs[0]) else Err(NoSession);
    }

    method ExpireAll(now: nat) returns (timedOut: set<NodeId>)
      modifies this`sessions
      ensures State() == old(State()).Expire(now)
      ensures timedOut == old(State()).TimedOut(now)
    {
      timedOut := {};
      var todo := sessions.Keys;
      var swept: map<NodeId, PeerSessions> := map[];
      while todo != {}
        invariant todo <= sessions.Keys && sessions == old(sessions)
        invariant swept == map id | id in sessions.Keys - todo :: sessions[id].Expire(now)
        invariant timedOut == set id | id in sessions.Keys - todo && sessions[id].TimesOut(now)
        decreases todo
      {
        var id :| id in todo;
        todo := todo - {id};
        var p := sessions[id];
        if p.current.Some? {
          if p.current.value.IsReady() && p.current.value.MustExpire(now) {
            p := p.(current := None);
          } else if p.current.value.IsStaleHandshake(now) {
            p := p.(current := None);
            timedOut := timedOut + {id};
          }
        }
        if p.next.Some? {
          if p.next.value.IsStaleHandshake(now) {
            p := p.(next := None);
            timedOut := timedOut + {id};
          } else if p.next.value.IsReady() && p.next.value.MustExpire(now) {
            p := p.(next := None);
          }
        }
        if p.current.None? && Ready(p.next) {
          p := p.Promote(now);
        }
        if p.previous.Some? && Monus(now, p.previous.value.1) >= PREVIOUS_GRACE_SECS {
          p := p.(previous := None);
        }
        assert p == sessions[id].Expire(now);
        swept := swept[id := p];
      }
      sessions := map id | id in swept && !swept[id].IsEmpty() :: swept[id];
    }

    /** One peer's slots against the key now published for it; `lost` when one was dropped. */
    static method KeepVouched(q: PeerSessions, want: Option<StaticKey>) returns (p: PeerSessions, lost: bool)
      ensures p == q.Keep(want) && lost == q.Loses(want)
    {
      p := q;
      if p.current.Some? && want != Some(p.current.value.PeerStatic()) {
        p := p.(current := None);
      }
      if p.next.Some? && want != Some(p.next.value.PeerStatic()) {
        p := p.(next := None);
      }
      if p.previous.Some? && want != Some(p.previous.value.0.PeerStatic()) {
        p := p.(previous := None);
      }
      lost := (q.current.Some?, q.next.Some?, q.previous.Some?) != (p.current.Some?, p.next.Some?, p.previous.Some?);
    }

    /** The slots every peer keeps, and the peers that lost one. */
    static method KeepAll(held: map<NodeId, PeerSessions>, published: Published)
      returns (kept: map<NodeId, PeerSessions>, dropped: set<NodeId>)
      ensures kept == map id | id in held && !held[id].Keep(KeyIn(published, id)).IsEmpty()
                        :: held[id].Keep(KeyIn(published, id))
      ensures dropped == set id | id in held && held[id].Loses(KeyIn(published, id))
    {
      dropped := {};
      kept := map[];
      var todo := held.Keys;
      while todo != {}
        invariant todo <= held.Keys
        invariant forall id :: id in kept <==>
                  id in held && id !in todo && !held[id].Keep(KeyIn(published, id)).IsEmpty()
        invariant forall id <- kept :: kept[id] == held[id].Keep(KeyIn(published, id))
        invariant forall id :: id in dropped <==> id in held && id !in todo && held[id].Loses(KeyIn(published, id))
        decreases todo
      {
        var id :| id in todo;
        todo := todo - {id};
        var p, lost := KeepVouched(held[id], KeyIn(published, id));
        if lost {
          dropped := dropped + {id};
        }
        if !p.IsEmpty() {
          kept := kept[id := p];
        }
      }
    }

    /** Sessions, queues and watermarks follow what the view publishes. */
    method SyncToView(published: Published) returns (dropped: set<NodeId>)
      modifies this
      ensures State() == old(State()).SyncView(published)
      ensures dropped == old(State()).Dropped(published)
    {
      ghost var t := State();
      sessions, dropped := KeepAll(sessions, published);
      assert sessions == t.SyncView(published).sessions && dropped == t.Dropped(published);
      pending := map id | id in pending && KeyIn(published, id).Some? &&
        (id in sessions || id !in dropped) :: pending[id];
      assert pending == t.SyncView(published).pending;
      marks := map k | k in marks && KeyIn(published, k.0) == Some(k.1) :: marks[k];
    }
  }
}

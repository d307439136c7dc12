/**
 The session between two endpoints, with Noise IK (section 7.5 of the Noise
 Protocol Framework, revision 34) taken symbolically: a handshake is its transcript, every
 ephemeral is fresh, and a ciphertext opens only under the key and nonce it was sealed with.
 */
module Seal {
  import opened Base
  import opened Replay

  type NodeId = nat
  type StaticKey = nat
  type Packet = seq<nat>

  const REKEY_AFTER_SECS: nat := 120
  const RESPONDER_REKEY_DELAY_SECS: nat := 10
  const REJECT_AFTER_SECS: nat := 180
  const PREVIOUS_GRACE_SECS: nat := 10
  const HANDSHAKE_TIMEOUT_SECS: nat := 5
  const REKEY_AFTER_MESSAGES: nat := 0x100_0000_0000
  const REJECT_AFTER_MESSAGES: nat := 0x100_0000_0000 + 0x4000_0000

  // ---------- the initiator's clock ----------

  datatype Tai64n = Tai64n(secs: nat, nanos: nat) {
    /** The derived lexicographic order. */
    predicate Before(t: Tai64n) {
      secs < t.secs || (secs == t.secs && nanos < t.nanos)
    }

    function Succ(): Tai64n {
      if nanos >= 999_999_999
      then Tai64n(if secs >= U64_MAX then U64_MAX else secs + 1, 0)
      else Tai64n(secs, nanos + 1)
    }

    /** The last timestamp there is: seconds saturate, so `Succ` steps back from it. */
    predicate AtTheEnd() {
      secs >= U64_MAX && nanos >= 999_999_999
    }
  }

  /** `Succ` is the least later timestamp exactly until the seconds saturate. */
  lemma SuccIsNext(t: Tai64n, u: Tai64n)
    requires t.secs <= U64_MAX && u.nanos <= 999_999_999
    ensures t.Before(t.Succ()) <==> !t.AtTheEnd()
    ensures !t.AtTheEnd() && t.Before(u) ==> u == t.Succ() || t.Succ().Before(u)
  {
  }

  // ---------- symbolic Noise IK ----------

  /** The `idx`th ephemeral drawn by the holder of static key `owner`. */
  datatype Eph = Eph(owner: StaticKey, idx: nat)

  /** What msg1 binds: the prologue, both static keys and the initiator's ephemeral. */
  datatype Transcript = Transcript(
    uuid: nat, initId: NodeId, respId: NodeId,
    initStatic: StaticKey, respStatic: StaticKey, e: Eph)

  /** The transport keys of a completed handshake. */
  datatype PairKey = PairKey(hs: Transcript, f: Eph)

  datatype HandshakeMsg =
    | Msg1(hs: Transcript, ts: Tai64n)
    | Msg2(key: PairKey)
    | Noise

  datatype Cipher =
    | Sealed(key: PairKey, byInitiator: bool, nonce: nat, payload: Packet)
    | Garbage

  datatype SealError = NoSession | Replayed | BadTag

  datatype Stage =
    | InHandshake(hs: Transcript)
    | Transport(key: PairKey, sendNonce: nat)

  datatype Session = Session(
    stage: Stage, peer: NodeId, initiator: bool,
    seen: set<nat>, establishedAt: nat, messages: nat)
  {
    function Hs(): Transcript {
      match stage
      case InHandshake(hs) => hs
      case Transport(key, _) => key.hs
    }

    predicate IsReady() { stage.Transport? }

    /** The peer's static key this session authenticates. */
    function PeerStatic(): StaticKey {
      if initiator then Hs().respStatic else Hs().initStatic
    }

    predicate IsStaleHandshake(now: nat) {
      !IsReady() && Monus(now, establishedAt) >= HANDSHAKE_TIMEOUT_SECS
    }

    predicate NeedsRekey(now: nat) {
      Monus(now, establishedAt) >= REKEY_AFTER_SECS || messages >= REKEY_AFTER_MESSAGES
    }

    predicate MustExpire(now: nat) {
      Monus(now, establishedAt) >= REJECT_AFTER_SECS || messages >= REJECT_AFTER_MESSAGES
    }

    /** Does this ciphertext authenticate under this session's receiving key at `ctr`? */
    predicate Opens(ctr: nat, ct: Cipher) {
      && IsReady() && ct.Sealed?
      && ct.key == stage.key && ct.byInitiator == !initiator && ct.nonce == ctr
    }

    /** Encrypt one packet: the session afterwards, the counter and the ciphertext. */
    function Seal(payload: Packet): (Session, nat, Cipher)
      requires IsReady()
    {
      var n := stage.sendNonce;
      (this.(stage := Transport(stage.key, n + 1), messages := messages + 1),
       n, Sealed(stage.key, initiator, n, payload))
    }

    /** Window check, authenticate, then commit. */
    function Unseal(ctr: nat, ct: Cipher): Result<(Session, Packet), SealError> {
      if !IsReady() then Err(NoSession)
      else if !Accepts(seen, ctr) then Err(Replayed)
      else if !Opens(ctr, ct) then Err(BadTag)
      else Ok((this.(seen := seen + {ctr}), ct.payload))
    }

    /** Does `msg` answer the handshake this session started? */
    predicate IsReply(msg: HandshakeMsg) {
      stage.InHandshake? && msg.Msg2? && msg.key.hs == stage.hs
    }

    /** Initiator side: consume the reply. A message that is no reply changes nothing. */
    function Finish(msg: HandshakeMsg): Session
      requires IsReply(msg)
    {
      this.(stage := Transport(msg.key, 0))
    }
  }

  /** The caller's half-open session on a new ephemeral, for the static key published by its peer. */
  function Initiate(uuid: nat, me: NodeId, mine: StaticKey, peer: NodeId, theirs: StaticKey,
                    e: Eph, now: nat): Session
  {
    Session(InHandshake(Transcript(uuid, me, peer, mine, theirs, e)), peer, true, {}, now, 0)
  }

  /** Is `msg` a first message for us from `peer`, under our prologue and our static key? */
  predicate IsInitiation(uuid: nat, me: NodeId, mine: StaticKey, peer: NodeId, msg: HandshakeMsg) {
    && msg.Msg1?
    && msg.hs.uuid == uuid && msg.hs.initId == peer && msg.hs.respId == me
    && msg.hs.respStatic == mine
  }

  /** Answer a first message with a fresh ephemeral; the reply carries the new key. */
  function Respond(msg: HandshakeMsg, peer: NodeId, f: Eph, now: nat): Session
    requires msg.Msg1?
  {
    Session(Transport(PairKey(msg.hs, f), 0), peer, false, {}, now, 0)
  }

  /**
   A frame that fails authentication, or is a replay, leaves the session as it was; one
   that opens was sealed by the other side of this very key and moves only the window.
   */
  lemma UnsealIsAuthentic(s: Session, ctr: nat, ct: Cipher)
    ensures s.Unseal(ctr, ct).Ok? <==> s.Opens(ctr, ct) && Accepts(s.seen, ctr)
    ensures s.Unseal(ctr, ct).Ok? ==>
              var (t, p) := s.Unseal(ctr, ct).value;
              && ct == Sealed(s.stage.key, !s.initiator, ctr, p)
              && t.seen == s.seen + {ctr} && ctr !in s.seen
              && t == s.(seen := t.seen)
    ensures s.Unseal(ctr, ct).Ok? ==> s.Unseal(ctr, ct).value.0.Unseal(ctr, ct) == Err(Replayed)
  {
    if s.Unseal(ctr, ct).Ok? {
      var t := s.Unseal(ctr, ct).value.0;
      assert !Accepts(t.seen, ctr);
    }
  }

  /**
   The session as the program keeps it: updated in place, its window the circular bitmap.
   Every method does to `State()` exactly what the value-level function says.
   */
  class PairSession {
    var stage: Stage
    const peer: NodeId
    const initiator: bool
    const replay: ReplayWindow
    const establishedAt: nat
    var messages: nat

    ghost predicate Valid()
      reads this, replay, replay.bits
    {
      replay.Valid()
    }

    ghost function State(): Session
      reads this, replay
    {
      Session(stage, peer, initiator, replay.seen, establishedAt, messages)
    }

    constructor Initiating(uuid: nat, me: NodeId, mine: StaticKey, peer: NodeId, theirs: StaticKey,
                           e: Eph, now: nat)
      ensures Valid() && fresh(replay) && fresh(replay.bits)
      ensures State() == Initiate(uuid, me, mine, peer, theirs, e, now)
    {
      var w := new ReplayWindow();
      stage := InHandshake(Transcript(uuid, me, peer, mine, theirs, e));
      this.peer, initiator, replay, establishedAt, messages := peer, true, w, now, 0;
    }

    constructor Responding(msg: HandshakeMsg, peer: NodeId, f: Eph, now: nat)
      requires msg.Msg1?
      ensures Valid() && fresh(replay) && fresh(replay.bits)
      ensures State() == Respond(msg, peer, f, now)
    {
      var w := new ReplayWindow();
      stage := Transport(PairKey(msg.hs, f), 0);
      this.peer, initiator, replay, establishedAt, messages := peer, false, w, now, 0;
    }

    method FinishHandshake(reply: HandshakeMsg) returns (ok: bool)
      requires Valid()
      modifies this`stage
      ensures Valid()
      ensures ok <==> old(stage.Transport? || State().IsReply(reply))
      ensures State() == if old(State().IsReply(reply)) then old(State()).Finish(reply) else old(State())
    {
      match stage
      case Transport(_, _) => ok := true;
      case InHandshake(hs) =>
        if reply.Msg2? && reply.key.hs == hs {
          stage := Transport(reply.key, 0);
          ok := true;
        } else {
          ok := false;
        }
    }

    method SealPacket(payload: Packet) returns (r: Result<(nat, Cipher), SealError>)
      requires Valid()
      modifies this`stage, this`messages
      ensures Valid()
      ensures old(State()).IsReady() ==>
                var (s, n, ct) := old(State()).Seal(payload);
                State() == s && r == Ok((n, ct))
      ensures !old(State()).IsReady() ==> State() == old(State()) && r == Err(NoSession)
    {
      match stage
      case InHandshake(_) => r := Err(NoSession);
      case Transport(key, n) =>
        stage := Transport(key, n + 1);
        messages := messages + 1;
        r := Ok((n, Sealed(key, initiator, n, payload)));
    }

    method UnsealFrame(ctr: nat, ct: Cipher) returns (r: Result<Packet, SealError>)
      requires Valid()
      modifies replay, replay.bits
      ensures Valid() && replay.bits == old(replay.bits)
      ensures match old(State()).Unseal(ctr, ct)
              case Ok((s, p)) => State() == s && r == Ok(p)
              case Err(e) => State() == old(State()) && r == Err(e)
    {
      if stage.InHandshake? {
        return Err(NoSession);
      }
      var unseen := replay.Check(ctr);
      if !unseen {
        return Err(Replayed);
      }
      if !(ct.Sealed? && ct.key == stage.key && ct.byInitiator == !initiator && ct.nonce == ctr) {
        return Err(BadTag);
      }
      replay.Commit(ctr);
      r := Ok(ct.payload);
    }
  }
}

/**
 Liveness and attachment leases: what members report, the attachment table derived from it, and
 the promise that no reported change is lost on the way to a published view.
 */
module Leasing {
  import opened Base

  type NodeId = nat

  // A relay's declaration of one client, numbered in the order of first declaration.
  datatype Claim = Claim(session: nat, num: nat)

  type Claims = map<NodeId, Claim>

  // What a relay says about one client it holds.
  datatype Attached = Attached(node: NodeId, session: nat)

  datatype State = State(
    lastSeen: map<NodeId, nat>,
    offlineSince: map<NodeId, nat>,
    onlineSince: map<NodeId, nat>,
    declared: map<NodeId, Claims>,
    attachedTo: map<NodeId, NodeId>,
    nextSeq: nat)
  {
    // ---------- claims ----------

    predicate Declares(r: NodeId, c: NodeId) {
      r in declared && c in declared[r]
    }

    function Num(r: NodeId, c: NodeId): nat
      requires Declares(r, c)
    {
      declared[r][c].num
    }

    /** No two claims share a number, and the counter is ahead of them all. */
    ghost predicate Numbered() {
      && (forall r, c :: Declares(r, c) ==> Num(r, c) <= nextSeq)
      && (forall r, c, q, d :: Declares(r, c) && Declares(q, d) && Num(r, c) == Num(q, d) ==> r == q && c == d)
    }

    /** A claim the client does not contradict. */
    predicate Stands(r: NodeId, c: NodeId) {
      Declares(r, c) && (c in attachedTo ==> attachedTo[c] == r)
    }

    /** The most recent standing claim on a client. */
    ghost predicate IsAttachment(c: NodeId, r: NodeId) {
      Stands(r, c) && forall q :: Stands(q, c) ==> Num(q, c) <= Num(r, c)
    }

    // ---------- liveness ----------

    function Seen(n: NodeId, now: nat): State {
      if n in lastSeen then this.(lastSeen := lastSeen[n := now])
      else this.(lastSeen := lastSeen[n := now], onlineSince := onlineSince[n := now],
                 offlineSince := offlineSince - {n})
    }

    /** Liveness ends; attachments do not. */
    function Offline(n: NodeId): State {
      this.(lastSeen := lastSeen - {n},
            offlineSince := if n in lastSeen then offlineSince[n := lastSeen[n]] else offlineSince,
            onlineSince := onlineSince - {n},
            attachedTo := attachedTo - {n})
    }

    function Silent(now: nat, window: nat): set<NodeId> {
      set n | n in lastSeen && Monus(now, lastSeen[n]) > window
    }

    function Remove(n: NodeId): State {
      var off := Offline(n);
      off.(offlineSince := off.offlineSince - {n}, declared := map r | r in declared :: declared[r] - {n})
    }

    function RemoveRelay(r: NodeId): State {
      this.(declared := declared - {r}).Remove(r)
    }

    // ---------- a heartbeat ----------

    function RelayBeat(n: NodeId, said: seq<Attached>, clients: set<NodeId>): (State, bool) {
      var mine := if n in declared then declared[n] else map[];
      var k := Fold(mine, said, clients, nextSeq);
      (this.(declared := declared[n := k.keep], nextSeq := k.next), k.changed || |k.keep| != |mine|)
    }

    function ClientBeat(n: NodeId, at: Option<NodeId>): (State, bool) {
      var before := if n in attachedTo then Some(attachedTo[n]) else None;
      (this.(attachedTo := if at.Some? then attachedTo[n := at.value] else attachedTo - {n}), before != at)
    }

    function Heartbeat(b: Beat, now: nat, clients: set<NodeId>, maxAttached: nat): (State, bool) {
      var cameOnline := b.node !in lastSeen;
      var (after, changed) :=
        if b.relay then Seen(b.node, now).RelayBeat(b.node, Take(b.attached, maxAttached), clients)
        else Seen(b.node, now).ClientBeat(b.node, b.attachedTo);
      (after, cameOnline || changed)
    }
  }

  datatype Beat = Beat(node: NodeId, relay: bool, attached: seq<Attached>, attachedTo: Option<NodeId>, mtu: nat)

  function Take<T>(v: seq<T>, n: nat): seq<T> {
    if |v| <= n then v else v[..n]
  }

  // The claims kept so far, the counter, and whether any is new.
  datatype Kept = Kept(keep: Claims, next: nat, changed: bool)

  function KeepOne(k: Kept, mine: Claims, a: Attached, clients: set<NodeId>): Kept {
    if a.node !in clients then k
    else if a.node in mine && mine[a.node].session == a.session then k.(keep := k.keep[a.node := mine[a.node]])
    else Kept(k.keep[a.node := Claim(a.session, k.next + 1)], k.next + 1, true)
  }

  function Fold(mine: Claims, said: seq<Attached>, clients: set<NodeId>, next: nat): Kept {
    if said == [] then Kept(map[], next, false) else
    var i := |said| - 1;
    KeepOne(Fold(mine, said[..i], clients, next), mine, said[i], clients)
  }

  /** Every claim kept is an old one of the same client or newly numbered above all old ones. */
  ghost predicate FoldOk(mine: Claims, k: Kept, next: nat) {
    && k.next >= next
    && (forall c <- k.keep :: (c in mine && k.keep[c] == mine[c]) || next < k.keep[c].num <= k.next)
    && (forall c <- k.keep, d <- k.keep :: c != d && next < k.keep[c].num ==> k.keep[c].num != k.keep[d].num)
    && (!k.changed ==> k.next == next)
  }

  lemma {:induction false} FoldNumbers(mine: Claims, said: seq<Attached>, clients: set<NodeId>, next: nat)
    requires forall c <- mine :: mine[c].num <= next
    ensures FoldOk(mine, Fold(mine, said, clients, next), next)
  {
    if said != [] {
      FoldNumbers(mine, said[..|said| - 1], clients, next);
    }
  }

  /** A fold that kept only old claims, as many as there were, kept exactly the old claims. */
  lemma UnchangedFold(mine: Claims, said: seq<Attached>, clients: set<NodeId>, next: nat)
    requires forall c <- mine :: mine[c].num <= next
    requires !Fold(mine, said, clients, next).changed && |Fold(mine, said, clients, next).keep| == |mine|
    ensures Fold(mine, said, clients, next) == Kept(mine, next, false)
  {
    FoldNumbers(mine, said, clients, next);
    var k := Fold(mine, said, clients, next);
    SubmapOfSameSize(k.keep, mine);
  }

  lemma SubmapOfSameSize(a: Claims, b: Claims)
    requires |a| == |b| && forall c <- a :: c in b && a[c] == b[c]
    ensures a == b
  {
    assert a.Keys <= b.Keys && |a.Keys| == |b.Keys|;
    SubsetOfSameSize(a.Keys, b.Keys);
  }

  lemma SubsetOfSameSize<T>(a: set<T>, b: set<T>)
    requires a <= b && |a| == |b|
    ensures a == b
  {
    assert |b - a| == 0;
  }

  // ---------- one latest claim ----------

  /** The attachment of a client is unique, so the order in which claims are visited is irrelevant. */
  lemma OneAttachment(s: State, c: NodeId, r: NodeId, q: NodeId)
    requires s.Numbered() && s.IsAttachment(c, r) && s.IsAttachment(c, q)
    ensures r == q
  {
    assert s.Num(r, c) == s.Num(q, c);
  }

  ghost predicate IsTable(s: State, t: map<NodeId, NodeId>) {
    && (forall c <- t :: s.IsAttachment(c, t[c]))
    && (forall c, r :: s.Stands(r, c) ==> c in t)
  }

  lemma OneTable(s: State, t: map<NodeId, NodeId>, u: map<NodeId, NodeId>)
    requires s.Numbered() && IsTable(s, t) && IsTable(s, u)
    ensures t == u
  {
    forall c
      ensures c in t <==> c in u
      ensures c in t && c in u ==> t[c] == u[c]
    {
      if c in t { assert s.Stands(t[c], c); }
      if c in u { assert s.Stands(u[c], c); }
      if c in t && c in u { OneAttachment(s, c, t[c], u[c]); }
    }
  }

  /**
   Where a client is shown: if it says where it is, there or nowhere, and there exactly if that relay
   claims it; if it does not say, at the relay with the most recent claim, if any relay claims it.
   */
  lemma ClientHasTheLastWord(s: State, t: map<NodeId, NodeId>, c: NodeId)
    requires IsTable(s, t)
    ensures c in s.attachedTo ==>
              && (c in t <==> s.Declares(s.attachedTo[c], c))
              && (c in t ==> t[c] == s.attachedTo[c])
    ensures c !in s.attachedTo ==>
              && (c in t <==> exists r :: s.Declares(r, c))
              && (c in t ==> s.Declares(t[c], c) && forall q :: s.Declares(q, c) ==> s.Num(q, c) <= s.Num(t[c], c))
  {
    if c in t {
      assert s.IsAttachment(c, t[c]);
    }
    if c in s.attachedTo {
      assert s.Declares(s.attachedTo[c], c) ==> s.Stands(s.attachedTo[c], c);
    } else {
      assert forall q :: s.Declares(q, c) ==> s.Stands(q, c);
    }
  }

  // ---------- every operation keeps the numbering ----------

  lemma SeenKeeps(s: State, n: NodeId, now: nat)
    requires s.Numbered()
    ensures s.Seen(n, now).Numbered()
  {
    assert forall r, c :: s.Seen(n, now).Declares(r, c) <==> s.Declares(r, c);
    assert forall r, c :: s.Declares(r, c) ==> s.Seen(n, now).Num(r, c) == s.Num(r, c);
  }

  lemma RelayBeatKeeps(s: State, n: NodeId, said: seq<Attached>, clients: set<NodeId>)
    requires s.Numbered()
    ensures s.RelayBeat(n, said, clients).0.Numbered()
  {
    var mine := if n in s.declared then s.declared[n] else map[];
    var after := s.RelayBeat(n, said, clients).0;
    forall c | c in mine
      ensures mine[c].num <= s.nextSeq
    {
      assert s.Declares(n, c) && s.Num(n, c) <= s.nextSeq;
    }
    FoldNumbers(mine, said, clients, s.nextSeq);
    var k := Fold(mine, said, clients, s.nextSeq);
    forall r, c | after.Declares(r, c)
      ensures after.Num(r, c) <= after.nextSeq
      ensures after.Num(r, c) <= s.nextSeq ==> s.Declares(r, c) && s.Num(r, c) == after.Num(r, c)
      ensures r != n ==> after.Num(r, c) <= s.nextSeq
    {
      if r != n { assert s.Declares(r, c); } else { assert c in k.keep; assert c in mine ==> s.Declares(n, c); }
    }
    forall r, c, q, d | after.Declares(r, c) && after.Declares(q, d) && after.Num(r, c) == after.Num(q, d)
      ensures r == q && c == d
    {
      if after.Num(r, c) <= s.nextSeq {
        assert s.Num(r, c) == s.Num(q, d);
      } else {
        assert r == n && q == n;
      }
    }
  }

  // ---------- what a relay's report says ----------

  /** The last thing the relay said about the client is its `i`th entry. */
  predicate LastWord(said: seq<Attached>, c: NodeId, i: nat) {
    i < |said| && said[i].node == c && forall k :: i < k < |said| ==> said[k].node != c
  }

  lemma {:induction false} FoldNames(mine: Claims, said: seq<Attached>, clients: set<NodeId>, next: nat, c: NodeId)
    ensures c in Fold(mine, said, clients, next).keep <==> c in clients && exists a <- said :: a.node == c
  {
    if said != [] {
      var k := |said| - 1;
      FoldNames(mine, said[..k], clients, next, c);
      assert said == said[..k] + [said[k]];
    }
  }

  lemma {:induction false} FoldSays(mine: Claims, said: seq<Attached>, clients: set<NodeId>, next: nat, c: NodeId,
                                    i: nat)
    requires LastWord(said, c, i) && c in clients && forall x <- mine :: mine[x].num <= next
    ensures var k := Fold(mine, said, clients, next).keep;
            && c in k && k[c].session == said[i].session
            && (if c in mine && mine[c].session == said[i].session then k[c] == mine[c] else k[c].num > next)
  {
    var k := |said| - 1;
    FoldNumbers(mine, said[..k], clients, next);
    if i < k {
      FoldSays(mine, said[..k], clients, next, c, i);
    }
  }

  /**
   After a relay's report it claims exactly the clients it named, each under the session it said last. A
   claim keeps its number exactly if that session was declared before; otherwise it is numbered above
   every claim there was. No other relay's claims change.
   */
  lemma ClaimsAfterReport(s: State, n: NodeId, said: seq<Attached>, clients: set<NodeId>, c: NodeId)
    requires s.Numbered()
    ensures var t := s.RelayBeat(n, said, clients).0;
            && (t.Declares(n, c) <==> c in clients && exists a <- said :: a.node == c)
            && (forall i: nat :: LastWord(said, c, i) && c in clients ==>
                  && t.Declares(n, c) && t.declared[n][c].session == said[i].session
                  && (if s.Declares(n, c) && s.declared[n][c].session == said[i].session
                      then t.declared[n][c] == s.declared[n][c] else t.Num(n, c) > s.nextSeq))
            && (forall r :: r != n ==> (t.Declares(r, c) <==> s.Declares(r, c)))
            && (forall r :: r != n && s.Declares(r, c) ==> t.declared[r][c] == s.declared[r][c])
  {
    var mine := if n in s.declared then s.declared[n] else map[];
    forall x | x in mine
      ensures mine[x].num <= s.nextSeq
    {
      assert s.Declares(n, x) && s.Num(n, x) <= s.nextSeq;
    }
    FoldNames(mine, said, clients, s.nextSeq, c);
    forall i: nat | LastWord(said, c, i) && c in clients
      ensures var k := Fold(mine, said, clients, s.nextSeq).keep;
              && c in k && k[c].session == said[i].session
              && (if c in mine && mine[c].session == said[i].session then k[c] == mine[c] else k[c].num > s.nextSeq)
    {
      FoldSays(mine, said, clients, s.nextSeq, c, i);
    }
  }

  /** A client that shows up at a relay under a new session, and does not say otherwise, is attached there. */
  lemma NewSessionAttaches(s: State, n: NodeId, said: seq<Attached>, clients: set<NodeId>, c: NodeId, i: nat)
    requires s.Numbered() && LastWord(said, c, i) && c in clients
    requires !(s.Declares(n, c) && s.declared[n][c].session == said[i].session)
    requires c in s.attachedTo ==> s.attachedTo[c] == n
    ensures s.RelayBeat(n, said, clients).0.IsAttachment(c, n)
  {
    var t := s.RelayBeat(n, said, clients).0;
    ClaimsAfterReport(s, n, said, clients, c);
    assert t.Declares(n, c) && t.Num(n, c) > s.nextSeq;
    forall q | t.Stands(q, c)
      ensures t.Num(q, c) <= t.Num(n, c)
    {
      if q != n {
        assert s.Declares(q, c) && t.declared[q][c] == s.declared[q][c] && s.Num(q, c) <= s.nextSeq;
      }
    }
  }

  /** Nobody is named twice. */
  predicate NamedOnce(said: seq<Attached>) {
    forall i, k :: 0 <= i < k < |said| ==> said[i].node != said[k].node
  }

  lemma {:induction false} FoldChanges(mine: Claims, said: seq<Attached>, clients: set<NodeId>, next: nat)
    requires NamedOnce(said) && forall x <- mine :: mine[x].num <= next
    ensures Fold(mine, said, clients, next).changed ==> exists c <- Fold(mine, said, clients, next).keep ::
              Fold(mine, said, clients, next).keep[c].num > next
  {
    if said != [] {
      var k := |said| - 1;
      var a, was, now := said[k], Fold(mine, said[..k], clients, next), Fold(mine, said, clients, next);
      FoldChanges(mine, said[..k], clients, next);
      FoldNumbers(mine, said[..k], clients, next);
      if was.changed {
        var c :| c in was.keep && was.keep[c].num > next;
        FoldNames(mine, said[..k], clients, next, c);
        assert c != a.node && c in now.keep;
      } else if now.changed {
        assert now.keep[a.node].num > next;
      }
    }
  }

  /** A relay that names nobody twice reports a change exactly if its claims are not what they were. */
  lemma ReportsChangeIff(s: State, n: NodeId, said: seq<Attached>, clients: set<NodeId>)
    requires s.Numbered() && NamedOnce(said)
    ensures s.RelayBeat(n, said, clients).1 <==>
            s.RelayBeat(n, said, clients).0.declared[n] != if n in s.declared then s.declared[n] else map[]
  {
    var mine := if n in s.declared then s.declared[n] else map[];
    forall x | x in mine
      ensures mine[x].num <= s.nextSeq
    {
      assert s.Declares(n, x) && s.Num(n, x) <= s.nextSeq;
    }
    FoldChanges(mine, said, clients, s.nextSeq);
    if !s.RelayBeat(n, said, clients).1 {
      UnchangedFold(mine, said, clients, s.nextSeq);
    }
  }

  /**
   A relay's heartbeat leaves it claiming exactly the known clients among as many entries as are read. A
   client's leaves it saying what it said, and every claim as it was.
   */
  lemma HeartbeatClaims(s: State, b: Beat, now: nat, clients: set<NodeId>, maxAttached: nat, c: NodeId)
    requires s.Numbered()
    ensures var t := s.Heartbeat(b, now, clients, maxAttached).0;
            if b.relay then
              && t.attachedTo == s.attachedTo
              && (t.Declares(b.node, c) <==>
                  c in clients && exists i :: 0 <= i < |b.attached| && i < maxAttached && b.attached[i].node == c)
            else
              && t.declared == s.declared
              && (b.node in t.attachedTo <==> b.attachedTo.Some?)
              && (b.attachedTo.Some? ==> t.attachedTo[b.node] == b.attachedTo.value)
              && (c != b.node ==> (c in t.attachedTo <==> c in s.attachedTo))
              && (c != b.node && c in s.attachedTo ==> t.attachedTo[c] == s.attachedTo[c])
  {
    if b.relay {
      SeenKeeps(s, b.node, now);
      ClaimsAfterReport(s.Seen(b.node, now), b.node, Take(b.attached, maxAttached), clients, c);
      TakenAre(b.attached, maxAttached, c);
    }
  }

  lemma TakenAre(v: seq<Attached>, n: nat, c: NodeId)
    ensures (exists a <- Take(v, n) :: a.node == c) <==>
            exists i :: 0 <= i < |v| && i < n && v[i].node == c
  {
    if i :| 0 <= i < |v| && i < n && v[i].node == c {
      assert Take(v, n)[i] == v[i];
    }
  }

  lemma HeartbeatKeeps(s: State, b: Beat, now: nat, clients: set<NodeId>, maxAttached: nat)
    requires s.Numbered()
    ensures s.Heartbeat(b, now, clients, maxAttached).0.Numbered()
  {
    SeenKeeps(s, b.node, now);
    var seen := s.Seen(b.node, now);
    if b.relay {
      RelayBeatKeeps(seen, b.node, Take(b.attached, maxAttached), clients);
    } else {
      SameDeclared(seen, seen.ClientBeat(b.node, b.attachedTo).0);
    }
  }

  lemma SameDeclared(s: State, t: State)
    requires s.Numbered() && t.declared == s.declared && t.nextSeq == s.nextSeq
    ensures t.Numbered()
  {
    assert forall r, c :: t.Declares(r, c) <==> s.Declares(r, c);
    assert forall r, c :: s.Declares(r, c) ==> t.Num(r, c) == s.Num(r, c);
  }

  /** Dropping claims keeps the rest distinct. */
  lemma FewerDeclared(s: State, t: State)
    requires s.Numbered() && t.nextSeq == s.nextSeq
    requires forall r <- t.declared ::
               && r in s.declared
               && forall c <- t.declared[r] :: c in s.declared[r] && t.declared[r][c] == s.declared[r][c]
    ensures t.Numbered()
  {
    assert forall r, c :: t.Declares(r, c) ==> s.Declares(r, c) && t.Num(r, c) == s.Num(r, c);
  }

  lemma RemovalsKeep(s: State, n: NodeId)
    requires s.Numbered()
    ensures s.Offline(n).Numbered() && s.Remove(n).Numbered() && s.RemoveRelay(n).Numbered()
  {
    SameDeclared(s, s.Offline(n));
    FewerDeclared(s, s.Remove(n));
    FewerDeclared(s, s.RemoveRelay(n));
  }

  /** Nobody claims a member that was forgotten, a forgotten relay claims nobody, and every other claim stays. */
  lemma ForgottenIsGone(s: State, n: NodeId, r: NodeId, c: NodeId)
    ensures s.Remove(n).Declares(r, c) <==> s.Declares(r, c) && c != n
    ensures s.RemoveRelay(n).Declares(r, c) <==> s.Declares(r, c) && c != n && r != n
    ensures s.Remove(n).Declares(r, c) ==> s.Remove(n).declared[r][c] == s.declared[r][c]
    ensures s.RemoveRelay(n).Declares(r, c) ==> s.RemoveRelay(n).declared[r][c] == s.declared[r][c]
    ensures forall t <- {s.Remove(n), s.RemoveRelay(n)} ::
              n !in t.lastSeen && n !in t.onlineSince && n !in t.offlineSince && n !in t.attachedTo
  {
  }

  // ---------- what the view is derived from ----------

  // Who is online and since when, where clients are attached, and the reported MTUs.
  datatype Facts = Facts(
    online: set<NodeId>, since: map<NodeId, nat>, table: map<NodeId, NodeId>, mtus: map<NodeId, nat>)

  ghost predicate Derived(s: State, mtus: map<NodeId, nat>, f: Facts) {
    f.online == s.lastSeen.Keys && f.since == s.onlineSince && IsTable(s, f.table) && f.mtus == mtus
  }

  ghost predicate SameStands(s: State, t: State) {
    forall r, c :: (s.Stands(r, c) <==> t.Stands(r, c)) &&
      (s.Stands(r, c) && t.Stands(r, c) ==> s.Num(r, c) == t.Num(r, c))
  }

  /** Two states with the same standing claims have the same attachments. */
  lemma SameStanding(s: State, t: State, table: map<NodeId, NodeId>)
    requires IsTable(s, table) && SameStands(s, t)
    ensures IsTable(t, table)
  {
    forall c | c in table
      ensures t.IsAttachment(c, table[c])
    {
      assert s.IsAttachment(c, table[c]);
    }
  }

  lemma QuietRelay(s: State, n: NodeId, said: seq<Attached>, clients: set<NodeId>)
    requires s.Numbered() && !s.RelayBeat(n, said, clients).1
    ensures var t := s.RelayBeat(n, said, clients).0;
            && SameStands(s, t)
            && t.lastSeen == s.lastSeen && t.onlineSince == s.onlineSince
  {
    var mine := if n in s.declared then s.declared[n] else map[];
    forall c | c in mine
      ensures mine[c].num <= s.nextSeq
    {
      assert s.Declares(n, c) && s.Num(n, c) <= s.nextSeq;
    }
    UnchangedFold(mine, said, clients, s.nextSeq);
    var t := s.RelayBeat(n, said, clients).0;
    assert t.declared == s.declared[n := mine];
  }

  /** A heartbeat that reports no change changes nothing the view is derived from. */
  lemma QuietHeartbeat(s: State, mtus: map<NodeId, nat>, f: Facts, b: Beat, now: nat, clients: set<NodeId>,
                       maxAttached: nat)
    requires s.Numbered() && Derived(s, mtus, f) && !s.Heartbeat(b, now, clients, maxAttached).1
    ensures Derived(s.Heartbeat(b, now, clients, maxAttached).0, mtus, f)
  {
    var seen := s.Seen(b.node, now);
    SeenKeeps(s, b.node, now);
    assert seen.lastSeen.Keys == s.lastSeen.Keys;
    SameStanding(s, seen, f.table);
    if b.relay {
      QuietRelay(seen, b.node, Take(b.attached, maxAttached), clients);
      SameStanding(seen, seen.RelayBeat(b.node, Take(b.attached, maxAttached), clients).0, f.table);
    } else {
      assert seen.ClientBeat(b.node, b.attachedTo).0 == seen;
    }
  }

  // ---------- from a report to a published view ----------

  const PUBLISH_DEBOUNCE_MS := 150
  const MTU_QUANTUM := 8
  const MIN_TUNNEL_MTU := 1280

  /** A reported MTU as the network may use it: capped, rounded down below the cap, never under the floor. */
  function QuantizeMtu(reported: nat, ceiling: nat): nat {
    var v := if reported < ceiling then reported else ceiling;
    var q := if v < ceiling then v - v % MTU_QUANTUM else v;
    if q < MIN_TUNNEL_MTU then MIN_TUNNEL_MTU else q
  }

  /**
   The MTU in use is at least the floor. Above it, it is the ceiling if that much was reported, and otherwise
   the largest multiple of eight that was.
   */
  lemma MtuIs(reported: nat, ceiling: nat)
    ensures var q := QuantizeMtu(reported, ceiling);
            && q >= 1280
            && (reported >= ceiling ==> q == if ceiling < 1280 then 1280 else ceiling)
            && (reported < ceiling && q > 1280 ==> q % 8 == 0 && q <= reported < q + 8)
            && (reported < ceiling && q == 1280 ==> reported < 1288)
  {
  }

  // `basis` is what the published view was last derived from.
  datatype Net = Net(leases: State, mtus: map<NodeId, nat>, basis: Facts, lastPublish: nat, flushScheduled: bool)

  // Events carry the clock and, where the view is recomputed, the facts it is recomputed from.
  datatype Event =
    | Report(b: Beat, now: nat, clients: set<NodeId>, maxAttached: nat, ceiling: nat, facts: Facts)
    | Flush(now: nat, facts: Facts)
    | Register(n: NodeId, now: nat, facts: Facts)
    | Leave(n: NodeId, now: nat, facts: Facts)
    | Sweep(now: nat, window: nat, facts: Facts)
    | Forget(n: NodeId, relay: bool, now: nat, facts: Facts)
    | Refresh(n: NodeId, now: nat)

  function Published(w: Net, now: nat, facts: Facts): Net {
    w.(basis := facts, lastPublish := now)
  }

  /** Publish now, or leave it to a trailing publish that is scheduled once. */
  function Debounced(w: Net, now: nat, facts: Facts): Net {
    if Monus(now, w.lastPublish) >= PUBLISH_DEBOUNCE_MS then Published(w, now, facts)
    else w.(flushScheduled := true)
  }

  function ReportedMtus(mtus: map<NodeId, nat>, b: Beat, ceiling: nat): map<NodeId, nat> {
    if b.mtu > 0 then mtus[b.node := QuantizeMtu(b.mtu, ceiling)] else mtus
  }

  function Reported(w: Net, b: Beat, now: nat, clients: set<NodeId>, maxAttached: nat, ceiling: nat,
                    facts: Facts): Net
  {
    var (leases, changed) := w.leases.Heartbeat(b, now, clients, maxAttached);
    var mtus := ReportedMtus(w.mtus, b, ceiling);
    var v := w.(leases := leases, mtus := mtus);
    if changed || mtus != w.mtus then Debounced(v, now, facts) else v
  }

  function Gone(s: State, ns: set<NodeId>): State {
    s.(lastSeen := s.lastSeen - ns,
       offlineSince := s.offlineSince + (map n | n in ns && n in s.lastSeen :: s.lastSeen[n]),
       onlineSince := s.onlineSince - ns,
       attachedTo := s.attachedTo - ns)
  }

  /** The state an event leaves before anything is published. */
  function Applied(w: Net, e: Event): Net {
    match e
    case Report(b, now, clients, maxAttached, ceiling, _) =>
      w.(leases := w.leases.Heartbeat(b, now, clients, maxAttached).0, mtus := ReportedMtus(w.mtus, b, ceiling))
    case Flush(_, _) => w.(flushScheduled := false)
    case Register(n, now, _) => w.(leases := w.leases.Seen(n, now))
    case Leave(n, _, _) => w.(leases := w.leases.Offline(n), mtus := w.mtus - {n})
    case Sweep(now, window, _) =>
      var gone := w.leases.Silent(now, window);
      w.(leases := Gone(w.leases, gone), mtus := w.mtus - gone)
    case Forget(n, relay, _, _) =>
      w.(leases := if relay then w.leases.RemoveRelay(n) else w.leases.Remove(n), mtus := w.mtus - {n})
    case Refresh(n, now) => w.(leases := w.leases.Seen(n, now))
  }

  function Step(w: Net, e: Event): Net {
    match e
    case Report(b, now, clients, maxAttached, ceiling, facts) =>
      Reported(w, b, now, clients, maxAttached, ceiling, facts)
    case Refresh(_, _) => Applied(w, e)
    case _ => Published(Applied(w, e), e.now, e.facts)
  }

  /** A view is recomputed from what is held at that moment. */
  ghost predicate Enabled(w: Net, e: Event) {
    && (e.Flush? ==> w.flushScheduled)
    && (!e.Refresh? ==> Derived(Applied(w, e).leases, Applied(w, e).mtus, e.facts))
  }

  /** The published view is derived from what is held now. */
  ghost predicate UpToDate(w: Net) {
    Derived(w.leases, w.mtus, w.basis)
  }

  ghost predicate NothingLost(w: Net) {
    w.leases.Numbered() && (UpToDate(w) || w.flushScheduled)
  }

  lemma AppliedNumbered(w: Net, e: Event)
    requires w.leases.Numbered()
    ensures Applied(w, e).leases.Numbered()
  {
    match e
    case Report(b, now, clients, maxAttached, _, _) => HeartbeatKeeps(w.leases, b, now, clients, maxAttached);
    case Flush(_, _) =>
    case Register(n, now, _) => SeenKeeps(w.leases, n, now);
    case Leave(n, _, _) => RemovalsKeep(w.leases, n);
    case Sweep(now, window, _) => SameDeclared(w.leases, Gone(w.leases, w.leases.Silent(now, window)));
    case Forget(n, _, _, _) => RemovalsKeep(w.leases, n);
    case Refresh(n, now) => SeenKeeps(w.leases, n, now);
  }

  /** A refreshed credential is no publish: an up-to-date view stays so exactly if the member was online. */
  lemma RefreshUpToDate(w: Net, n: NodeId, now: nat)
    requires w.leases.Numbered() && UpToDate(w)
    ensures UpToDate(Step(w, Refresh(n, now))) <==> n in w.leases.lastSeen
  {
    var v := Step(w, Refresh(n, now));
    if n in w.leases.lastSeen {
      assert v.leases.lastSeen.Keys == w.leases.lastSeen.Keys;
      SameStanding(w.leases, v.leases, w.basis.table);
    } else {
      assert n in v.leases.lastSeen.Keys && n !in w.basis.online;
    }
  }

  /** A refresh loses nothing exactly if the member was online or a trailing publish was scheduled anyway. */
  lemma RefreshKeepsIff(w: Net, n: NodeId, now: nat)
    requires NothingLost(w)
    ensures NothingLost(Step(w, Refresh(n, now))) <==> n in w.leases.lastSeen || w.flushScheduled
  {
    AppliedNumbered(w, Refresh(n, now));
    if UpToDate(w) { RefreshUpToDate(w, n, now); }
  }

  /** The step recomputes the view: every event but a refresh, a quiet heartbeat and a debounced one. */
  predicate Publishes(w: Net, e: Event) {
    match e
    case Report(b, now, clients, maxAttached, ceiling, _) =>
      && (w.leases.Heartbeat(b, now, clients, maxAttached).1 || ReportedMtus(w.mtus, b, ceiling) != w.mtus)
      && Monus(now, w.lastPublish) >= PUBLISH_DEBOUNCE_MS
    case Refresh(_, _) => false
    case _ => true
  }

  /**
   What a report does to the view: nothing if it changed nothing; else it is recomputed at once if the last
   time was at least 150 ms ago, and left to a trailing publish otherwise. Of the MTUs only the sender's can
   change, and only if it reported one.
   */
  lemma ReportPublishesIff(w: Net, e: Event)
    requires e.Report?
    ensures var v := Step(w, e);
            var changed := w.leases.Heartbeat(e.b, e.now, e.clients, e.maxAttached).1 || v.mtus != w.mtus;
            && (if changed && w.lastPublish + 150 <= e.now
                then v.basis == e.facts && v.lastPublish == e.now && v.flushScheduled == w.flushScheduled
                else && v.basis == w.basis && v.lastPublish == w.lastPublish
                     && (v.flushScheduled <==> w.flushScheduled || changed))
            && (if e.b.mtu > 0
                then v.mtus == w.mtus[e.b.node := QuantizeMtu(e.b.mtu, e.ceiling)] else v.mtus == w.mtus)
  {
  }

  /** `missed`: a member counted as offline refreshed its credential since the last publish. */
  function Missed(missed: bool, w: Net, e: Event): bool {
    !Publishes(w, e) && (missed || (e.Refresh? && e.n !in w.leases.lastSeen))
  }

  ghost predicate NothingElseLost(w: Net, missed: bool) {
    w.leases.Numbered() && (UpToDate(w) || w.flushScheduled || missed)
  }

  lemma ReportKeeps(w: Net, e: Event, missed: bool)
    requires NothingElseLost(w, missed) && Enabled(w, e) && e.Report?
    ensures NothingElseLost(Step(w, e), Missed(missed, w, e))
  {
    AppliedNumbered(w, e);
    var changed := w.leases.Heartbeat(e.b, e.now, e.clients, e.maxAttached).1;
    if !changed && ReportedMtus(w.mtus, e.b, e.ceiling) == w.mtus && UpToDate(w) {
      QuietHeartbeat(w.leases, w.mtus, w.basis, e.b, e.now, e.clients, e.maxAttached);
    }
  }

  lemma StepKeeps(w: Net, e: Event, missed: bool)
    requires NothingElseLost(w, missed) && Enabled(w, e)
    ensures NothingElseLost(Step(w, e), Missed(missed, w, e))
  {
    AppliedNumbered(w, e);
    if e.Report? {
      ReportKeeps(w, e, missed);
    } else if e.Refresh? && UpToDate(w) {
      RefreshUpToDate(w, e.n, e.now);
    }
  }

  ghost predicate Follows(w: Net, missed: bool, v: Net, missed': bool) {
    exists e: Event :: Enabled(w, e) && v == Step(w, e) && missed' == Missed(missed, w, e)
  }

  /** Any run from an empty coordinator, with whether a return was missed since the last publish. */
  ghost predicate IsRun(run: seq<Net>, missed: seq<bool>) {
    && |run| == |missed| > 0 && !missed[0]
    && run[0].leases == State(map[], map[], map[], map[], map[], 0) && run[0].mtus == map[] && UpToDate(run[0])
    && forall k :: 0 < k < |run| ==> Follows(run[k - 1], missed[k - 1], run[k], missed[k])
  }

  /**
   No change is lost: at every point of every run the published view is derived from what is held
   now, or a trailing publish is scheduled, or a member counted as offline refreshed its credential
   since the last publish; and claim numbers are all distinct.
   */
  lemma {:induction false} NoReportIsLost(run: seq<Net>, missed: seq<bool>, k: nat)
    requires IsRun(run, missed) && k < |run|
    ensures UpToDate(run[k]) || run[k].flushScheduled || missed[k]
    ensures run[k].leases.Numbered()
  {
    if k > 0 {
      NoReportIsLost(run, missed, k - 1);
      var w, m := run[k - 1], missed[k - 1];
      assert Follows(w, m, run[k], missed[k]);
      var e: Event :| Enabled(w, e) && run[k] == Step(w, e) && missed[k] == Missed(m, w, e);
      StepKeeps(w, e, m);
    }
  }

  // ---------- who is online ----------

  /** An event heard from a member. */
  predicate Hears(e: Event, n: NodeId) {
    match e
    case Report(b, _, _, _, _, _) => b.node == n
    case Register(m, _, _) => m == n
    case Refresh(m, _) => m == n
    case _ => false
  }

  /** An event that ends the lease of a member last heard from at `t`. */
  predicate Ends(e: Event, n: NodeId, t: nat) {
    match e
    case Leave(m, _, _) => m == n
    case Forget(m, _, _, _) => m == n
    case Sweep(now, window, _) => t + window < now
    case _ => false
  }

  /** Of the first `k` events the `j`th is the last one heard from the member, and none after it ended the lease. */
  ghost predicate Holds(es: seq<Event>, k: nat, n: NodeId, j: nat) {
    && j < k <= |es| && Hears(es[j], n)
    && forall i :: j < i < k ==> !Hears(es[i], n) && !Ends(es[i], n, es[j].now)
  }

  ghost predicate StepAt(run: seq<Net>, es: seq<Event>, k: nat)
    requires k < |es| && |run| == |es| + 1
  {
    run[k + 1] == Step(run[k], es[k])
  }

  /** A run from an empty coordinator, with its events. */
  ghost predicate IsTrace(run: seq<Net>, es: seq<Event>) {
    && |run| == |es| + 1 && run[0].leases.lastSeen == map[]
    && forall k: nat :: k < |es| ==> StepAt(run, es, k)
  }

  lemma StepHears(w: Net, e: Event, n: NodeId)
    ensures var s, t := w.leases.lastSeen, Step(w, e).leases.lastSeen;
            && (Hears(e, n) ==> n in t && t[n] == e.now)
            && (!Hears(e, n) && n !in s ==> n !in t)
            && (!Hears(e, n) && n in s ==> (n in t <==> !Ends(e, n, s[n])) && (n in t ==> t[n] == s[n]))
  {
    SteppedIsApplied(w, e);
    match e
    case Report(b, now, clients, maxAttached, _, _) => BeatIsSeen(w.leases, b, now, clients, maxAttached);
    case Forget(m, _, _, _) =>
      assert w.leases.Remove(m).lastSeen == w.leases.RemoveRelay(m).lastSeen == w.leases.lastSeen - {m};
    case _ =>
  }

  lemma SteppedIsApplied(w: Net, e: Event)
    ensures Step(w, e).leases == Applied(w, e).leases
  {
  }

  lemma BeatIsSeen(s: State, b: Beat, now: nat, clients: set<NodeId>, maxAttached: nat)
    ensures s.Heartbeat(b, now, clients, maxAttached).0.lastSeen == s.lastSeen[b.node := now]
  {
  }

  /**
   In every run a member is online exactly if it was heard from and since then has neither left, nor been
   forgotten, nor been silent for longer than the window of a sweep; and its lease dates from that time.
   */
  lemma {:induction false} OnlineIff(run: seq<Net>, es: seq<Event>, k: nat, n: NodeId)
    requires IsTrace(run, es) && k <= |es|
    ensures n in run[k].leases.lastSeen <==> exists j: nat :: Holds(es, k, n, j)
    ensures forall j: nat :: Holds(es, k, n, j) && n in run[k].leases.lastSeen ==>
            run[k].leases.lastSeen[n] == es[j].now
  {
    if k > 0 {
      OnlineIff(run, es, k - 1, n);
      assert StepAt(run, es, k - 1);
      StepHears(run[k - 1], es[k - 1], n);
      var e := es[k - 1];
      if Hears(e, n) {
        assert Holds(es, k, n, k - 1);
      } else {
        assert forall j: nat :: Holds(es, k, n, j) ==> Holds(es, k - 1, n, j) && !Ends(e, n, es[j].now);
        if n in run[k].leases.lastSeen {
          var j: nat :| Holds(es, k - 1, n, j);
          assert Holds(es, k, n, j);
        }
      }
    }
  }

  function Nobody(): Net {
    Net(State(map[], map[], map[], map[], map[], 0), map[], Facts({}, map[], map[], map[]), 0, false)
  }

  /** A member that registered and nothing else. */
  function OnlyOne(n: NodeId, now: nat): State {
    State(map[n := now], map[], map[n := now], map[], map[], 0)
  }

  lemma FirstRegisters() returns (joined: Net)
    ensures Follows(Nobody(), false, joined, false)
    ensures joined.leases == OnlyOne(7, 0) && joined.mtus == map[] && !joined.flushScheduled
  {
    var came := Register(7, 0, Facts({7}, map[7 := 0], map[], map[]));
    assert Applied(Nobody(), came).leases == OnlyOne(7, 0);
    assert OnlyOne(7, 0).lastSeen.Keys == {7};
    assert Enabled(Nobody(), came);
    joined := Step(Nobody(), came);
  }

  /** Silent past the window, it is swept offline. */
  lemma RunOut(joined: Net, window: nat) returns (swept: Net)
    requires joined.leases == OnlyOne(7, 0) && joined.mtus == map[] && !joined.flushScheduled
    ensures Follows(joined, false, swept, false)
    ensures NothingLost(swept) && !swept.flushScheduled && 7 !in swept.leases.lastSeen
  {
    assert joined.leases.Silent(window + 1, window) == {7};
    var out := Sweep(window + 1, window, Facts({}, map[], map[], map[]));
    var after := Applied(joined, out).leases;
    assert after.lastSeen == map[] && after.onlineSince == map[] && after.declared == map[];
    assert Enabled(joined, out);
    swept := Step(joined, out);
  }

  /** A refresh that arrives after its member's lease ran out leaves the view behind with nothing scheduled. */
  lemma RefreshCanLoseAReturn(window: nat) returns (run: seq<Net>, missed: seq<bool>)
    ensures IsRun(run, missed) && run[0] == Nobody() && |run| == 4
    ensures !UpToDate(run[3]) && !run[3].flushScheduled && missed == [false, false, false, true]
  {
    var joined := FirstRegisters();
    var swept := RunOut(joined, window);
    var late := Refresh(7, window + 2);
    RefreshKeepsIff(swept, 7, window + 2);
    AppliedNumbered(swept, late);
    assert Follows(swept, false, Step(swept, late), true) by {
      assert Enabled(swept, late);
    }
    run, missed := [Nobody(), joined, swept, Step(swept, late)], [false, false, false, true];
  }

  // ---------- the lease book, in place ----------

  class Leases {
    var s: State

    constructor ()
      ensures s == State(map[], map[], map[], map[], map[], 0) && s.Numbered()
    {
      s := State(map[], map[], map[], map[], map[], 0);
    }

    /** True if the member was offline before. */
    method Seen(n: NodeId, now: nat) returns (cameOnline: bool)
      modifies this
      ensures s == old(s).Seen(n, now) && cameOnline == (n !in old(s).lastSeen)
    {
      cameOnline := n !in s.lastSeen;
      s := s.(lastSeen := s.lastSeen[n := now]);
      if cameOnline {
        s := s.(onlineSince := s.onlineSince[n := now], offlineSince := s.offlineSince - {n});
      }
    }

    method Heartbeat(b: Beat, now: nat, clients: set<NodeId>, maxAttached: nat) returns (changed: bool)
      requires s.Numbered()
      modifies this
      ensures (s, changed) == old(s).Heartbeat(b, now, clients, maxAttached) && s.Numbered()
    {
      HeartbeatKeeps(s, b, now, clients, maxAttached);
      var cameOnline := Seen(b.node, now);
      if b.relay {
        changed := Declare(b.node, Take(b.attached, maxAttached), clients);
      } else {
        var before := if b.node in s.attachedTo then Some(s.attachedTo[b.node]) else None;
        s := s.(attachedTo := if b.attachedTo.Some? then s.attachedTo[b.node := b.attachedTo.value]
          else s.attachedTo - {b.node});
        changed := before != b.attachedTo;
      }
      changed := cameOnline || changed;
    }

    /** A relay's whole set of clients: known sessions keep their claim, others get the next number. */
    method Declare(n: NodeId, said: seq<Attached>, clients: set<NodeId>) returns (changed: bool)
      modifies this
      ensures (s, changed) == old(s).RelayBeat(n, said, clients)
    {
      var mine: Claims := if n in s.declared then s.declared[n] else map[];
      var keep: Claims := map[];
      var next := s.nextSeq;
      changed := false;
      var i := 0;
      while i < |said|
        invariant 0 <= i <= |said| && s == old(s)
        invariant Kept(keep, next, changed) == Fold(mine, said[..i], clients, s.nextSeq)
      {
        assert said[..i + 1][..i] == said[..i];
        var a := said[i];
        if a.node in clients {
          if a.node in mine && mine[a.node].session == a.session {
            keep := keep[a.node := mine[a.node]];
          } else {
            changed := true;
            next := next + 1;
            keep := keep[a.node := Claim(a.session, next)];
          }
        }
        i := i + 1;
      }
      assert said[..i] == said;
      if |keep| != |mine| {
        changed := true;
      }
      s := s.(declared := s.declared[n := keep], nextSeq := next);
    }

    method Offline(n: NodeId)
      modifies this
      ensures s == old(s).Offline(n)
    {
      if n in s.lastSeen {
        s := s.(offlineSince := s.offlineSince[n := s.lastSeen[n]], lastSeen := s.lastSeen - {n});
      }
      s := s.(onlineSince := s.onlineSince - {n}, attachedTo := s.attachedTo - {n});
      assert s.lastSeen == old(s).lastSeen - {n};
    }

    /** Everybody silent for longer than the window goes offline; claims on them stay. */
    method Expire(now: nat, window: nat) returns (gone: set<NodeId>)
      modifies this
      ensures gone == old(s).Silent(now, window) && s == Gone(old(s), gone)
    {
      gone := s.Silent(now, window);
      ghost var start := s;
      var todo := gone;
      ghost var done: set<NodeId> := {};
      NoneGone(start, done);
      while todo != {}
        invariant done + todo == gone && done !! todo && s == Gone(start, done)
        decreases |todo|
      {
        var n := Pick(todo);
        OneMoreGone(start, done, n);
        Offline(n);
        todo, done := todo - {n}, done + {n};
      }
      assert done == gone;
    }

    /** Where each client is attached: the most recent claim it does not contradict. */
    method Attachments() returns (t: map<NodeId, NodeId>)
      ensures IsTable(s, t)
    {
      var best: map<NodeId, (nat, NodeId)> := map[];
      var relays := s.declared.Keys;
      ghost var seen: set<(NodeId, NodeId)> := {};
      while relays != {}
        invariant relays <= s.declared.Keys && BestOf(s, best, seen)
        invariant forall r: NodeId, c: NodeId :: s.Declares(r, c) && r !in relays ==> (r, c) in seen
        decreases |relays|
      {
        var r := Pick(relays);
        best, seen := Consider(r, best, seen);
        relays := relays - {r};
      }
      t := map c | c in best :: best[c].1;
      BestIsTable(s, best, seen, t);
    }

    /** Every claim of one relay. */
    method Consider(r: NodeId, best: map<NodeId, (nat, NodeId)>, ghost seen: set<(NodeId, NodeId)>)
      returns (b: map<NodeId, (nat, NodeId)>, ghost more: set<(NodeId, NodeId)>)
      requires r in s.declared && BestOf(s, best, seen)
      ensures BestOf(s, b, more) && seen <= more && forall c: NodeId :: s.Declares(r, c) ==> (r, c) in more
    {
      b, more := best, seen;
      var clients := s.declared[r].Keys;
      while clients != {}
        invariant clients <= s.declared[r].Keys && BestOf(s, b, more) && seen <= more
        invariant forall c <- s.declared[r].Keys - clients :: (r, c) in more
        decreases |clients|
      {
        var c := Pick(clients);
        var num := s.declared[r][c].num;
        BestStep(s, b, more, r, c);
        if !(c in s.attachedTo && s.attachedTo[c] != r) && !(c in b && b[c].0 > num) {
          b := b[c := (num, r)];
        }
        more := more + {(r, c)};
        clients := clients - {c};
      }
    }
  }

  lemma BestStep(s: State, best: map<NodeId, (nat, NodeId)>, seen: set<(NodeId, NodeId)>, r: NodeId, c: NodeId)
    requires BestOf(s, best, seen) && s.Declares(r, c)
    ensures s.Stands(r, c) && !(c in best && best[c].0 > s.Num(r, c)) ==>
            BestOf(s, best[c := (s.Num(r, c), r)], seen + {(r, c)})
    ensures !(s.Stands(r, c) && !(c in best && best[c].0 > s.Num(r, c))) ==> BestOf(s, best, seen + {(r, c)})
  {
  }

  lemma BestIsTable(s: State, best: map<NodeId, (nat, NodeId)>, seen: set<(NodeId, NodeId)>, t: map<NodeId, NodeId>)
    requires BestOf(s, best, seen) && t == map c | c in best :: best[c].1
    requires forall r: NodeId, c: NodeId :: s.Declares(r, c) ==> (r, c) in seen
    ensures IsTable(s, t)
  {
    forall c | c in t
      ensures s.IsAttachment(c, t[c])
    {
      forall q: NodeId | s.Stands(q, c)
        ensures s.Num(q, c) <= s.Num(t[c], c)
      {
        assert (q, c) in seen;
      }
    }
  }

  /** The best standing claim on each client among those looked at. */
  ghost predicate BestOf(s: State, best: map<NodeId, (nat, NodeId)>, seen: set<(NodeId, NodeId)>) {
    && (forall c <- best :: (best[c].1, c) in seen && s.Stands(best[c].1, c) && best[c].0 == s.Num(best[c].1, c))
    && (forall r: NodeId, c: NodeId :: (r, c) in seen && s.Stands(r, c) ==> c in best && s.Num(r, c) <= best[c].0)
  }

  lemma NoneGone(s: State, ns: set<NodeId>)
    requires ns == {}
    ensures Gone(s, ns) == s
  {
    assert Gone(s, ns).offlineSince == s.offlineSince;
  }

  lemma OneMoreGone(s: State, ns: set<NodeId>, n: NodeId)
    requires n in s.lastSeen && n !in ns
    ensures Gone(s, ns).Offline(n) == Gone(s, ns + {n})
  {
    var a, b := Gone(s, ns).Offline(n), Gone(s, ns + {n});
    assert a.lastSeen == b.lastSeen && a.onlineSince == b.onlineSince && a.attachedTo == b.attachedTo;
    assert a.offlineSince == b.offlineSince;
  }

  /** The heartbeat path of a network's state; the facts of a publish are computed when it happens. */
  class NetState {
    const book: Leases
    var mtus: map<NodeId, nat>
    var basis: Facts
    var lastPublish: nat
    var flushScheduled: bool

    function State(): Net
      reads this, book
    {
      Net(book.s, mtus, basis, lastPublish, flushScheduled)
    }

    constructor ()
      ensures fresh(book) && NothingLost(State()) && !flushScheduled
    {
      book := new Leases();
      mtus, basis, lastPublish, flushScheduled := map[], Facts({}, map[], map[], map[]), 0, false;
    }

    method Publish(now: nat)
      modifies this
      ensures State() == Published(old(State()), now, basis) && UpToDate(State())
    {
      lastPublish := now;
      var table := book.Attachments();
      basis := Facts(book.s.lastSeen.Keys, book.s.onlineSince, table, mtus);
    }

    /** How long until a trailing publish is due, for the one caller that has to schedule it. */
    method PublishSoon(now: nat) returns (delay: Option<nat>)
      modifies this
      ensures State() == Debounced(old(State()), now, basis)
      ensures Monus(now, old(lastPublish)) >= PUBLISH_DEBOUNCE_MS ==> UpToDate(State())
      ensures delay.Some? <==> flushScheduled && !old(flushScheduled)
      ensures delay.Some? ==> 0 < delay.value <= PUBLISH_DEBOUNCE_MS
    {
      var since := Monus(now, lastPublish);
      if since >= PUBLISH_DEBOUNCE_MS {
        Publish(now);
        delay := None;
      } else if flushScheduled {
        delay := None;
      } else {
        flushScheduled := true;
        delay := Some(PUBLISH_DEBOUNCE_MS - since);
      }
    }

    method OnHeartbeat(b: Beat, now: nat, clients: set<NodeId>, maxAttached: nat, ceiling: nat)
      returns (delay: Option<nat>)
      requires NothingLost(State())
      modifies this, book
      ensures State() == Reported(old(State()), b, now, clients, maxAttached, ceiling, basis)
      ensures NothingLost(State())
    {
      ghost var w := State();
      var changed := book.Heartbeat(b, now, clients, maxAttached);
      var mtuChanged := false;
      if b.mtu > 0 {
        var q := QuantizeMtu(b.mtu, ceiling);
        mtuChanged := b.node !in mtus || mtus[b.node] != q;
        mtus := mtus[b.node := q];
      }
      assert mtuChanged <==> mtus != w.mtus;
      delay := None;
      if changed || mtuChanged {
        delay := PublishSoon(now);
      } else {
        if UpToDate(w) {
          QuietHeartbeat(w.leases, w.mtus, w.basis, b, now, clients, maxAttached);
        }
      }
    }
  }
}

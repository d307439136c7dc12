/**
 Which prefixes a node routes into its tunnel, how they compare with what its in-tunnel table
 sends where, and how the kernel's table is brought in line with them.
 */
module Routes {
  import opened Base
  import opened Cidrs
  import opened Snapshots

  const MIN_PREFIX_V4 := 8
  const MIN_PREFIX_V6 := 16

  /** A default stands for an internet exit, not for addresses of its claimant. */
  predicate IsExitMarker(n: Prefix) {
    n.len == 0
  }

  // The prefixes this node routes: those on its allowlist, or without one all that are not too wide.
  datatype RoutePolicy = RoutePolicy(allow: Option<seq<Prefix>>) {
    predicate Permits(n: Prefix) {
      || IsExitMarker(n)
      || (match allow
          case Some(list) => exists a <- list :: a.Contains(n)
          case None => n.len >= if n.v6 then MIN_PREFIX_V6 else MIN_PREFIX_V4)
    }
  }

  /** No policy at all permits everything. */
  predicate Permitted(policy: Option<RoutePolicy>, n: Prefix) {
    policy.Some? ==> policy.value.Permits(n)
  }

  lemma PolicyIgnoresHostBits(p: RoutePolicy, n: Prefix)
    ensures p.Permits(n.Trunc()) <==> p.Permits(n)
  {
    TruncCoversTheSame(n);
  }

  // ---------- the wanted routes ----------

  function Reserved(view: Snapshot, policy: Option<RoutePolicy>): set<Prefix> {
    set p | p in view.reserved && Permitted(policy, p.Trunc()) :: p.Trunc()
  }

  predicate Covered(covers: set<Prefix>, n: Prefix) {
    exists c <- covers :: c.Contains(n)
  }

  /** Our own space: what we hold, apart from the default behind an internet exit. */
  predicate OursAlready(mine: seq<Prefix>, w: Prefix) {
    exists m <- mine :: m.len > 0 && m.Contains(w)
  }

  /** A member's prefix that needs a route of its own. */
  predicate NeedsRoute(covers: set<Prefix>, policy: Option<RoutePolicy>, p: Prefix) {
    !IsExitMarker(p) && Permitted(policy, p.Trunc()) && !Covered(covers, p.Trunc())
  }

  function Extra(covers: set<Prefix>, policy: Option<RoutePolicy>, ps: seq<Prefix>): set<Prefix> {
    if ps == [] then {} else
    var k := |ps| - 1;
    Extra(covers, policy, ps[..k]) + if NeedsRoute(covers, policy, ps[k]) then {ps[k].Trunc()} else {}
  }

  function AllExtra(covers: set<Prefix>, policy: Option<RoutePolicy>, me: NodeId, ms: seq<Member>): set<Prefix> {
    if ms == [] then {} else
    var k := |ms| - 1;
    AllExtra(covers, policy, me, ms[..k]) + if ms[k].id == me then {} else Extra(covers, policy, ms[k].prefixes)
  }

  function Wanted(view: Snapshot, me: NodeId, mine: seq<Prefix>, policy: Option<RoutePolicy>): set<Prefix> {
    var covers := Reserved(view, policy);
    set w | w in covers + AllExtra(covers, policy, me, view.members) && !OursAlready(mine, w)
  }

  lemma {:induction false} ExtraHas(covers: set<Prefix>, policy: Option<RoutePolicy>, ps: seq<Prefix>, p: Prefix)
    requires p in ps && NeedsRoute(covers, policy, p)
    ensures p.Trunc() in Extra(covers, policy, ps)
  {
    var k := |ps| - 1;
    if p != ps[k] {
      assert p in ps[..k];
      ExtraHas(covers, policy, ps[..k], p);
    }
  }

  lemma {:induction false} AllExtraHas(covers: set<Prefix>, policy: Option<RoutePolicy>, me: NodeId, ms: seq<Member>,
                                       m: Member, p: Prefix)
    requires m in ms && m.id != me && p in m.prefixes && NeedsRoute(covers, policy, p)
    ensures p.Trunc() in AllExtra(covers, policy, me, ms)
  {
    var k := |ms| - 1;
    if m == ms[k] {
      ExtraHas(covers, policy, m.prefixes, p);
    } else {
      assert m in ms[..k];
      AllExtraHas(covers, policy, me, ms[..k], m, p);
    }
  }

  method ComputeWanted(view: Snapshot, me: NodeId, mine: seq<Prefix>, policy: Option<RoutePolicy>)
    returns (r: set<Prefix>)
    ensures r == Wanted(view, me, mine, policy)
  {
    var covers := Reserved(view, policy);
    var all := covers;
    var i := 0;
    while i < |view.members|
      invariant 0 <= i <= |view.members|
      invariant all == covers + AllExtra(covers, policy, me, view.members[..i])
    {
      var m := view.members[i];
      assert view.members[..i + 1][..i] == view.members[..i];
      if m.id != me {
        var more := ComputeExtra(covers, policy, m.prefixes);
        all := all + more;
      }
      i := i + 1;
    }
    assert view.members[..i] == view.members;
    r := set w | w in all && !OursAlready(mine, w);
  }

  method ComputeExtra(covers: set<Prefix>, policy: Option<RoutePolicy>, ps: seq<Prefix>) returns (r: set<Prefix>)
    ensures r == Extra(covers, policy, ps)
  {
    r := {};
    var j := 0;
    while j < |ps|
      invariant 0 <= j <= |ps|
      invariant r == Extra(covers, policy, ps[..j])
    {
      assert ps[..j + 1][..j] == ps[..j];
      if NeedsRoute(covers, policy, ps[j]) {
        r := r + {ps[j].Trunc()};
      }
      j := j + 1;
    }
    assert ps[..j] == ps;
  }

  // ---------- the in-tunnel table ----------

  // Longest-prefix-match table: truncated prefix to owner.
  type Lpm = map<Prefix, NodeId>

  /** The entry longest-prefix match picks for an address. */
  ghost predicate Picks(lpm: Lpm, ip: Address, net: Prefix) {
    && net in lpm && net.Has(ip)
    && forall n <- lpm :: n.Has(ip) ==> n.len <= net.len
  }

  ghost predicate TruncatedKeys(lpm: Lpm) {
    forall n <- lpm :: n.Trunc() == n
  }

  /** Longest-prefix match is a function of the address. */
  lemma PicksOne(lpm: Lpm, ip: Address, a: Prefix, b: Prefix)
    requires TruncatedKeys(lpm) && Picks(lpm, ip, a) && Picks(lpm, ip, b)
    ensures a == b
  {
    SameLengthSharedIsSame(a, b, ip);
  }

  predicate Routable(policy: RoutePolicy, p: Prefix) {
    !IsExitMarker(p) && policy.Permits(p)
  }

  /** A member's routable prefixes, one after the other. */
  function Put(lpm: Lpm, policy: RoutePolicy, id: NodeId, ps: seq<Prefix>): Lpm {
    if ps == [] then lpm else
    var k := |ps| - 1;
    var rest := Put(lpm, policy, id, ps[..k]);
    if Routable(policy, ps[k]) then rest[ps[k].Trunc() := id] else rest
  }

  /** What it no longer claims is dropped again. */
  function Unclaimed(lpm: Lpm, m: Member): set<Prefix> {
    set n | n in lpm && lpm[n] == m.id && n !in m.prefixes
  }

  /** The table after one member is put in: its prefixes, minus what it no longer claims. */
  function Upserted(lpm: Lpm, me: NodeId, policy: RoutePolicy, m: Member): Lpm {
    var put := if m.id == me then lpm else Put(lpm, policy, m.id, m.prefixes);
    put - Unclaimed(put, m)
  }

  function Rebuilt(me: NodeId, policy: RoutePolicy, members: seq<Member>): Lpm {
    if members == [] then map[] else
    var k := |members| - 1;
    Upserted(Rebuilt(me, policy, members[..k]), me, policy, members[k])
  }

  class PeerTable {
    var peers: map<NodeId, Member>
    var lpm: Lpm
    const me: NodeId
    var policy: RoutePolicy

    constructor (myNodeId: NodeId)
      ensures peers == map[] && lpm == map[] && me == myNodeId && policy == RoutePolicy(None)
    {
      peers, lpm, me, policy := map[], map[], myNodeId, RoutePolicy(None);
    }

    method Upsert(m: Member)
      modifies this
      ensures lpm == Upserted(old(lpm), me, policy, m) && peers == old(peers)[m.id := m] && policy == old(policy)
    {
      if m.id != me {
        var i := 0;
        while i < |m.prefixes|
          invariant 0 <= i <= |m.prefixes| && policy == old(policy) && peers == old(peers)
          invariant lpm == Put(old(lpm), policy, m.id, m.prefixes[..i])
        {
          assert m.prefixes[..i + 1][..i] == m.prefixes[..i];
          if Routable(policy, m.prefixes[i]) {
            lpm := lpm[m.prefixes[i].Trunc() := m.id];
          }
          i := i + 1;
        }
        assert m.prefixes[..i] == m.prefixes;
      }
      var stale := Unclaimed(lpm, m);
      lpm := lpm - stale;
      peers := peers[m.id := m];
    }

    method ReplaceAll(members: seq<Member>)
      modifies this
      ensures lpm == Rebuilt(me, policy, members) && policy == old(policy)
    {
      peers, lpm := map[], map[];
      var i := 0;
      while i < |members|
        invariant 0 <= i <= |members| && policy == old(policy)
        invariant lpm == Rebuilt(me, policy, members[..i])
      {
        assert members[..i + 1][..i] == members[..i];
        Upsert(members[i]);
        i := i + 1;
      }
      assert members[..i] == members;
    }
  }

  /** Every entry is a prefix its owner publishes, spelt truncated, permitted, and not an exit marker. */
  ghost predicate Claimed(me: NodeId, policy: RoutePolicy, members: seq<Member>, net: Prefix, id: NodeId) {
    && id != me && net.Trunc() == net && Routable(policy, net)
    && exists m <- members :: m.id == id && net in m.prefixes
  }

  lemma {:induction false} PutClaims(lpm: Lpm, policy: RoutePolicy, id: NodeId, ps: seq<Prefix>, n: Prefix)
    requires n in Put(lpm, policy, id, ps)
    ensures var put := Put(lpm, policy, id, ps);
            (n in lpm && put[n] == lpm[n]) || (put[n] == id && n.Trunc() == n && Routable(policy, n))
  {
    if ps != [] {
      var k := |ps| - 1;
      if Routable(policy, ps[k]) && n == ps[k].Trunc() {
        TruncCoversTheSame(ps[k]);
        PolicyIgnoresHostBits(policy, ps[k]);
      } else {
        PutClaims(lpm, policy, id, ps[..k], n);
      }
    }
  }

  lemma {:induction false} EntriesAreClaimed(me: NodeId, policy: RoutePolicy, members: seq<Member>, n: Prefix)
    requires n in Rebuilt(me, policy, members)
    ensures Claimed(me, policy, members, n, Rebuilt(me, policy, members)[n])
  {
    var k := |members| - 1;
    var was, m := Rebuilt(me, policy, members[..k]), members[k];
    var put := if m.id == me then was else Put(was, policy, m.id, m.prefixes);
    var lpm := Rebuilt(me, policy, members);
    assert n in put && lpm[n] == put[n] && n !in Unclaimed(put, m);
    if m.id != me {
      PutClaims(was, policy, m.id, m.prefixes, n);
    }
    if n in was && lpm[n] == was[n] {
      EntriesAreClaimed(me, policy, members[..k], n);
      var o :| o in members[..k] && o.id == lpm[n] && n in o.prefixes;
      assert o in members;
    } else {
      assert m in members;
    }
  }

  ghost predicate AllTruncated(members: seq<Member>) {
    forall m <- members, p <- m.prefixes :: p.Trunc() == p
  }

  lemma {:induction false} PutSets(lpm: Lpm, policy: RoutePolicy, id: NodeId, ps: seq<Prefix>, n: Prefix)
    requires n in ps && n.Trunc() == n && Routable(policy, n)
    ensures n in Put(lpm, policy, id, ps) && Put(lpm, policy, id, ps)[n] == id
  {
    var k := |ps| - 1;
    if ps[k] != n {
      assert n in ps[..k];
      PutSets(lpm, policy, id, ps[..k], n);
    }
  }

  lemma {:induction false} PutLeaves(lpm: Lpm, policy: RoutePolicy, id: NodeId, ps: seq<Prefix>, n: Prefix)
    requires n in lpm && forall p <- ps :: p.Trunc() != n
    ensures n in Put(lpm, policy, id, ps) && Put(lpm, policy, id, ps)[n] == lpm[n]
  {
    if ps != [] {
      assert ps[|ps| - 1].Trunc() != n;
      PutLeaves(lpm, policy, id, ps[..|ps| - 1], n);
    }
  }

  /** With distinct members and truncated prefixes, a routable prefix goes to the last member that claims it. */
  lemma {:induction false} LastClaimantOwns(me: NodeId, policy: RoutePolicy, members: seq<Member>, n: Prefix, j: nat)
    requires forall a, b :: 0 <= a < b < |members| ==> members[a].id != members[b].id
    requires AllTruncated(members) && Routable(policy, n)
    requires j < |members| && members[j].id != me && n in members[j].prefixes
    requires forall k :: j < k < |members| ==> n !in members[k].prefixes || members[k].id == me
    ensures n in Rebuilt(me, policy, members) && Rebuilt(me, policy, members)[n] == members[j].id
  {
    var k := |members| - 1;
    var was, m := Rebuilt(me, policy, members[..k]), members[k];
    assert members[j] in members && m in members;
    if j == k {
      PutSets(was, policy, m.id, m.prefixes, n);
    } else {
      LastClaimantOwns(me, policy, members[..k], n, j);
      if m.id != me { PutLeaves(was, policy, m.id, m.prefixes, n); }
    }
  }

  /**
   Every address the rebuilt table sends to a peer is in a wanted route or in this node's own
   space, although members' routes inside a reserved prefix are not installed one by one.
   */
  lemma TablesAgree(view: Snapshot, me: NodeId, mine: seq<Prefix>, policy: RoutePolicy, ip: Address, net: Prefix)
    requires Picks(Rebuilt(me, policy, view.members), ip, net)
    ensures (exists w <- Wanted(view, me, mine, Some(policy)) :: w.Has(ip)) ||
            (exists m <- mine :: m.len > 0 && m.Has(ip))
  {
    EntriesAreClaimed(me, policy, view.members, net);
    var id := Rebuilt(me, policy, view.members)[net];
    var o :| o in view.members && o.id == id && net in o.prefixes;
    var covers := Reserved(view, Some(policy));
    var w := RouteFor(view, me, policy, o, net);
    assert w.Has(ip);
    if OursAlready(mine, w) {
      var m :| m in mine && m.len > 0 && m.Contains(w);
      assert m.Has(ip);
    } else {
      assert w in Wanted(view, me, mine, Some(policy));
    }
  }

  /** A claimed prefix is routed as itself or inside a reserved one. */
  lemma RouteFor(view: Snapshot, me: NodeId, policy: RoutePolicy, o: Member, net: Prefix) returns (w: Prefix)
    requires o in view.members && o.id != me && net in o.prefixes && net.Trunc() == net && Routable(policy, net)
    ensures w in Reserved(view, Some(policy)) + AllExtra(Reserved(view, Some(policy)), Some(policy), me, view.members)
    ensures w.Contains(net)
  {
    var covers := Reserved(view, Some(policy));
    if Covered(covers, net) {
      w :| w in covers && w.Contains(net);
    } else {
      assert NeedsRoute(covers, Some(policy), net);
      AllExtraHas(covers, Some(policy), me, view.members, o, net);
      w := net;
    }
  }

  /** Nothing wanted lies in this node's own space. */
  lemma WantedIsNotOurs(view: Snapshot, me: NodeId, mine: seq<Prefix>, policy: Option<RoutePolicy>, w: Prefix)
    requires w in Wanted(view, me, mine, policy)
    ensures forall m <- mine :: m.len > 0 ==> !m.Contains(w)
    ensures forall m <- mine :: m.Trunc() == w ==> w.len == 0
  {
    forall m | m in mine && m.Trunc() == w
      ensures w.len == 0
    {
      TruncCoversTheSame(m);
    }
  }

  // ---------- exactly what is routed ----------

  /** Not wider than the policy takes: inside the allowlist, or without one at least so long. */
  predicate Acceptable(policy: RoutePolicy, n: Prefix) {
    match policy.allow
    case Some(list) => exists a <- list :: a.v6 == n.v6 && a.First() <= n.First() && n.Last() <= a.Last()
    case None => n.len >= if n.v6 then 16 else 8
  }

  /** The table holds exactly the acceptable prefixes, defaults apart, that another member claims. */
  lemma TableIsExact(me: NodeId, policy: RoutePolicy, members: seq<Member>, n: Prefix)
    requires forall a, b :: 0 <= a < b < |members| ==> members[a].id != members[b].id
    requires AllTruncated(members)
    ensures n in Rebuilt(me, policy, members) <==>
            n.len > 0 && Acceptable(policy, n) && exists m <- members :: m.id != me && n in m.prefixes
  {
    if n in Rebuilt(me, policy, members) {
      EntriesAreClaimed(me, policy, members, n);
    }
    if n.len > 0 && Acceptable(policy, n) && exists m <- members :: m.id != me && n in m.prefixes {
      var j := LastClaimant(me, members, n);
      LastClaimantOwns(me, policy, members, n, j);
    }
  }

  lemma {:induction false} LastClaimant(me: NodeId, members: seq<Member>, n: Prefix) returns (j: nat)
    requires exists m <- members :: m.id != me && n in m.prefixes
    ensures j < |members| && members[j].id != me && n in members[j].prefixes
    ensures forall k :: j < k < |members| ==> n !in members[k].prefixes || members[k].id == me
  {
    j := |members| - 1;
    if n !in members[j].prefixes || members[j].id == me {
      assert forall m <- members :: m in members[..j] || m == members[j];
      j := LastClaimant(me, members[..j], n);
    }
  }

  lemma {:induction false} ExtraIsTruncated(covers: set<Prefix>, policy: Option<RoutePolicy>, ps: seq<Prefix>)
    ensures forall w <- Extra(covers, policy, ps) :: w.Trunc() == w && !IsExitMarker(w)
  {
    if ps != [] {
      ExtraIsTruncated(covers, policy, ps[..|ps| - 1]);
      TruncCoversTheSame(ps[|ps| - 1]);
    }
  }

  lemma {:induction false} AllExtraIsTruncated(covers: set<Prefix>, policy: Option<RoutePolicy>, me: NodeId,
                                               ms: seq<Member>)
    ensures forall w <- AllExtra(covers, policy, me, ms) :: w.Trunc() == w && !IsExitMarker(w)
  {
    if ms != [] {
      AllExtraIsTruncated(covers, policy, me, ms[..|ms| - 1]);
      ExtraIsTruncated(covers, policy, ms[|ms| - 1].prefixes);
    }
  }

  /** Every wanted route is spelt truncated, and a wanted default is a reserved one. */
  lemma WantedIsTruncated(view: Snapshot, me: NodeId, mine: seq<Prefix>, policy: Option<RoutePolicy>)
    ensures forall w <- Wanted(view, me, mine, policy) ::
              w.Trunc() == w && (IsExitMarker(w) ==> w in Reserved(view, policy))
  {
    var covers := Reserved(view, policy);
    AllExtraIsTruncated(covers, policy, me, view.members);
    forall w | w in covers
      ensures w.Trunc() == w
    {
      var p :| p in view.reserved && Permitted(policy, p.Trunc()) && w == p.Trunc();
      TruncCoversTheSame(p);
    }
  }

  /** Taken by the policy: a default always, anything with no policy at all. */
  predicate Taken(policy: Option<RoutePolicy>, n: Prefix) {
    policy.None? || n.len == 0 || Acceptable(policy.value, n)
  }

  /** A reserved prefix the policy takes, by its truncated spelling. */
  predicate IsReserved(view: Snapshot, policy: Option<RoutePolicy>, w: Prefix) {
    Taken(policy, w) && exists p <- view.reserved :: p.Trunc() == w
  }

  /** Another member's prefix the policy takes, no default, and inside no reserved one it takes. */
  ghost predicate IsExtra(view: Snapshot, me: NodeId, policy: Option<RoutePolicy>, w: Prefix) {
    && w.len > 0 && Taken(policy, w)
    && (exists o <- view.members :: o.id != me && exists p <- o.prefixes :: p.Trunc() == w)
    && !exists c: Prefix :: IsReserved(view, policy, c) && c.Contains(w)
  }

  lemma PermittedIsTaken(policy: Option<RoutePolicy>, n: Prefix)
    ensures Permitted(policy, n) <==> Taken(policy, n)
  {
  }

  lemma ReservedIff(view: Snapshot, policy: Option<RoutePolicy>, w: Prefix)
    ensures w in Reserved(view, policy) <==> IsReserved(view, policy, w)
  {
    PermittedIsTaken(policy, w);
  }

  lemma {:induction false} ExtraIff(covers: set<Prefix>, policy: Option<RoutePolicy>, ps: seq<Prefix>, w: Prefix)
    ensures w in Extra(covers, policy, ps) <==>
            Permitted(policy, w) && !Covered(covers, w) && exists p <- ps :: p.Trunc() == w && p.len > 0
  {
    if ps != [] {
      var k := |ps| - 1;
      ExtraIff(covers, policy, ps[..k], w);
      assert ps == ps[..k] + [ps[k]];
    }
  }

  lemma {:induction false} AllExtraIff(covers: set<Prefix>, policy: Option<RoutePolicy>, me: NodeId, ms: seq<Member>,
                                       w: Prefix)
    ensures w in AllExtra(covers, policy, me, ms) <==>
            exists o <- ms :: o.id != me && w in Extra(covers, policy, o.prefixes)
  {
    if ms != [] {
      var k := |ms| - 1;
      AllExtraIff(covers, policy, me, ms[..k], w);
      assert ms == ms[..k] + [ms[k]];
    }
  }

  /**
   Exactly what is wanted: outside our own space, a reserved prefix the policy takes or another
   member's outside all of those. So a prefix the policy does not take is never routed.
   */
  lemma WantedIff(view: Snapshot, me: NodeId, mine: seq<Prefix>, policy: Option<RoutePolicy>, w: Prefix)
    ensures w in Wanted(view, me, mine, policy) <==>
            && (IsReserved(view, policy, w) || IsExtra(view, me, policy, w))
            && forall m <- mine :: m.len > 0 ==> !m.Contains(w)
  {
    var covers := Reserved(view, policy);
    ReservedIff(view, policy, w);
    CoversIff(view, policy, w);
    AllExtraIff(covers, policy, me, view.members, w);
    PermittedIsTaken(policy, w);
    forall o | o in view.members
      ensures w in Extra(covers, policy, o.prefixes) <==>
              Taken(policy, w) && !Covered(covers, w) && exists p <- o.prefixes :: p.Trunc() == w && p.len > 0
    {
      ExtraIff(covers, policy, o.prefixes, w);
    }
    ExtrasAgree(view, me, policy, w);
  }

  lemma ExtrasAgree(view: Snapshot, me: NodeId, policy: Option<RoutePolicy>, w: Prefix)
    ensures IsExtra(view, me, policy, w) <==>
            exists o <- view.members :: o.id != me &&
              (Taken(policy, w) && !Covered(Reserved(view, policy), w) &&
               exists p <- o.prefixes :: p.Trunc() == w && p.len > 0)
  {
    CoversIff(view, policy, w);
    assert forall p: Prefix :: p.Trunc() == w ==> p.len == w.len;
  }

  lemma CoversIff(view: Snapshot, policy: Option<RoutePolicy>, w: Prefix)
    ensures Covered(Reserved(view, policy), w) <==> exists c: Prefix :: IsReserved(view, policy, c) && c.Contains(w)
  {
    forall c: Prefix
      ensures c in Reserved(view, policy) <==> IsReserved(view, policy, c)
    {
      ReservedIff(view, policy, c);
    }
  }
}

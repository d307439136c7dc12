/**
 Address allocation: one range per family, static addresses that are never handed to another
 member, dynamic ones that follow their member, and a cursor that cycles through the range.
 */
module Ipam {
  import opened Base
  import opened Cidrs

  type NodeId = nat

  const V6_SCAN_CAP := 100_000

  datatype Record = Record(
    name: string, client: bool, disabled: bool, ip4: Option<nat>, ip6: Option<nat>,
    loginGen: nat, lastJoin: Option<nat>, created: nat)
  {
    function Ip(v6: bool): Option<nat> {
      if v6 then ip6 else ip4
    }

    function WithIp(v6: bool, ip: Option<nat>): Record {
      if v6 then this.(ip6 := ip) else this.(ip4 := ip)
    }
  }

  datatype Registry = Registry(members: map<NodeId, Record>, cursor4: nat, cursor6: nat, nextId: nat) {
    function Cursor(v6: bool): nat {
      if v6 then cursor6 else cursor4
    }

    function WithCursor(v6: bool, c: nat): Registry {
      if v6 then this.(cursor6 := c) else this.(cursor4 := c)
    }

    /** The address a node holds, if it has a record and the record one. */
    function Held(id: NodeId, v6: bool): Option<nat> {
      if id in members then members[id].Ip(v6) else None
    }
  }

  datatype MemberCfg = MemberCfg(pref4: Option<nat>, pref6: Option<nat>, client: bool, wantIp: bool) {
    function Pref(v6: bool): Option<nat> {
      if v6 then pref6 else pref4
    }
  }

  datatype Config = Config(members: map<string, MemberCfg>, net4: Prefix, net6: Option<Prefix>) {
    function Net(v6: bool): Option<Prefix> {
      if v6 then net6 else Some(net4)
    }

    predicate Inside(v6: bool, ip: nat) {
      Net(v6).Some? && Net(v6).value.First() <= ip <= Net(v6).value.Last()
    }

    /** One range per family, of that family; static addresses inside it and all different. */
    ghost predicate Valid() {
      && !net4.v6 && (net6.Some? ==> net6.value.v6)
      && (forall m <- members, v6: bool :: members[m].Pref(v6).Some? ==> Inside(v6, members[m].Pref(v6).value))
      && (forall m <- members, n <- members, v6: bool ::
            members[m].Pref(v6).Some? && members[m].Pref(v6) == members[n].Pref(v6) ==> m == n)
    }
  }

  // What the allocator reads of the leases when it may reclaim.
  datatype Liveness = Liveness(
    online: set<NodeId>, attached: set<NodeId>, offlineSince: map<NodeId, nat>, now: nat, joinGuard: nat)

  datatype Error = NotConfigured | Unusable | OutsideNetwork | InUse | Exhausted | Disabled | Uncommitted

  // ---------- scanning ----------

  /** How many addresses a scan considers, and the first of them. */
  function Span(net: Prefix): (r: (nat, nat)) {
    if !net.v6 then
      if net.len >= 31 then (net.Last() - net.First() + 1, net.First())
      else (Monus(net.Last() - net.First(), 1), net.First() + 1)
    else if net.Last() > net.First() then
      var n := net.Last() - net.First();
      (if n < V6_SCAN_CAP then n else V6_SCAN_CAP, net.First() + 1)
    else (0, net.First() + 1)
  }

  /** Everything a scan can grant is in the range. */
  lemma SpanIsInside(net: Prefix, i: nat)
    requires i < Span(net).0
    ensures net.First() <= Span(net).1 + i <= net.Last()
  {
  }

  /**
   What a scan covers: of an IPv4 range every address but the first and the last, or all of them where
   there are no more than two; of an IPv6 range the first so many after the first address.
   */
  lemma SpanIsTheHosts(net: Prefix, ip: nat)
    ensures Span(net).1 <= ip < Span(net).1 + Span(net).0 <==>
            && net.First() <= ip <= net.Last()
            && (if net.v6 then net.First() < ip <= net.First() + V6_SCAN_CAP
                else net.len >= 31 || (ip != net.First() && ip != net.Last()))
  {
    if !net.v6 && net.len == 31 { assert net.Size() == 2 * Pow2(0); }
  }

  /** The index `s` places after `start`, wrapping at `n`. */
  function Slot(start: nat, s: nat, n: nat): (i: nat)
    requires start < n && s <= n
    ensures i < n
  {
    if start + s < n then start + s else start + s - n
  }

  lemma SlotIsMod(start: nat, s: nat, n: nat)
    requires start < n && s <= n
    ensures Slot(start, s, n) == (start + s) % n
  {
    if start + s >= n { WrapsOnce(start + s - n, n); } else { SmallMod(start + s, n); }
  }

  lemma SmallMod(x: nat, n: nat)
    requires x < n
    ensures x % n == x
  {
  }

  lemma WrapsOnce(x: nat, n: nat)
    requires x < n
    ensures (x + n) % n == x
  {
  }

  predicate Taken(first: nat, taken: set<nat>, i: nat) {
    first + i in taken
  }

  /** The first offset from `start` whose address is free, or `n`. */
  function FirstFree(n: nat, first: nat, taken: set<nat>, start: nat, step: nat): (r: nat)
    requires start < n && step <= n
    ensures step <= r <= n
    ensures forall s: nat :: step <= s < r ==> Taken(first, taken, Slot(start, s, n))
    ensures r < n ==> !Taken(first, taken, Slot(start, r, n))
    decreases n - step
  {
    if step == n || !Taken(first, taken, Slot(start, step, n)) then step
      else FirstFree(n, first, taken, start, step + 1)
  }

  /** The index a scan grants: the first free one from the cursor on, wrapping. */
  function Scan(n: nat, first: nat, taken: set<nat>, cursor: nat): (r: Option<nat>)
    ensures r.Some? ==> r.value < n && !Taken(first, taken, r.value)
  {
    if n == 0 then None else
    var start := cursor % n;
    var s := FirstFree(n, first, taken, start, 0);
    if s == n then None else Some(Slot(start, s, n))
  }

  method ScanFromCursor(n: nat, first: nat, taken: set<nat>, cursor: nat) returns (r: Option<(nat, nat)>)
    ensures r == match Scan(n, first, taken, cursor)
                 case Some(i) => Some((first + i, NextCursor(i, n)))
                 case None => None
  {
    if n == 0 {
      return None;
    }
    var start := cursor % n;
    var step := 0;
    while step < n
      invariant 0 <= step <= n
      invariant FirstFree(n, first, taken, start, 0) == FirstFree(n, first, taken, start, step)
    {
      var i := (start + step) % n;
      SlotIsMod(start, step, n);
      if first + i !in taken {
        SlotIsMod(i, 1, n);
        return Some((first + i, (i + 1) % n));
      }
      step := step + 1;
    }
    r := None;
  }

  /** How far an index is ahead of `start`. */
  function Distance(start: nat, i: nat, n: nat): (s: nat)
    requires start < n && i < n
    ensures s < n && Slot(start, s, n) == i
  {
    if i >= start then i - start else i + n - start
  }

  /** Nothing is granted exactly when every address of the span is taken. */
  lemma ScanFailsIffFull(n: nat, first: nat, taken: set<nat>, cursor: nat)
    ensures Scan(n, first, taken, cursor).None? <==> forall i: nat :: i < n ==> Taken(first, taken, i)
  {
    if n > 0 && Scan(n, first, taken, cursor).None? {
      var start := cursor % n;
      forall i: nat | i < n
        ensures Taken(first, taken, i)
      {
        assert i == Slot(start, Distance(start, i, n), n);
      }
    }
  }

  // ---------- fairness of the cursor ----------

  // One grant by scanning: what was taken then, and the index granted.
  datatype Grant = Grant(taken: set<nat>, index: nat)

  function NextCursor(i: nat, n: nat): (c: nat)
    requires i < n
    ensures c < n
  {
    Slot(i, 1, n)
  }

  /** The first free index from `c` on, wrapping: everything before it is taken. */
  ghost predicate Picks(n: nat, first: nat, taken: set<nat>, c: nat, i: nat) {
    && c < n && i < n && !Taken(first, taken, i)
    && forall d: nat :: d < Distance(c, i, n) ==> Taken(first, taken, Slot(c, d, n))
  }

  lemma ScanPicks(n: nat, first: nat, taken: set<nat>, c: nat)
    requires c < n && Scan(n, first, taken, c).Some?
    ensures Picks(n, first, taken, c, Scan(n, first, taken, c).value)
  {
    SmallMod(c, n);
    var s := FirstFree(n, first, taken, c, 0);
    assert Distance(c, Slot(c, s, n), n) == s;
  }

  /** Where the cursor stands before the `k`-th of the grants. */
  function CursorAt(n: nat, c: nat, gs: seq<Grant>, k: nat): nat
    requires k <= |gs|
  {
    if k == 0 || gs[k - 1].index >= n then c else NextCursor(gs[k - 1].index, n)
  }

  ghost predicate PicksAt(n: nat, first: nat, c: nat, gs: seq<Grant>, k: nat)
    requires k < |gs|
  {
    Picks(n, first, gs[k].taken, CursorAt(n, c, gs, k), gs[k].index)
  }

  /** Successive scan grants over one span, each starting where the last one left the cursor. */
  ghost predicate Scans(n: nat, first: nat, c: nat, gs: seq<Grant>) {
    c < n && forall k {:trigger PicksAt(n, first, c, gs, k)} :: 0 <= k < |gs| ==> PicksAt(n, first, c, gs, k)
  }

  lemma ScansExtend(n: nat, first: nat, c: nat, gs: seq<Grant>, g: Grant)
    requires Scans(n, first, c, gs) && Picks(n, first, g.taken, CursorAt(n, c, gs, |gs|), g.index)
    ensures Scans(n, first, c, gs + [g]) && CursorAt(n, c, gs + [g], |gs| + 1) == NextCursor(g.index, n)
  {
    var more := gs + [g];
    forall k | 0 <= k < |more|
      ensures PicksAt(n, first, c, more, k)
    {
      assert CursorAt(n, c, more, k) == CursorAt(n, c, gs, k);
      if k < |gs| { assert PicksAt(n, first, c, gs, k); }
    }
  }

  /** A grant passes an index: it grants it, or found it taken. */
  ghost predicate Passes(first: nat, g: Grant, i: nat) {
    g.index == i || Taken(first, g.taken, i)
  }

  ghost predicate Passed(first: nat, gs: seq<Grant>, i: nat) {
    exists g <- gs :: Passes(first, g, i)
  }

  /** From the `p`-th grant on, every one lies less than `d` places after `c`. */
  ghost predicate Short(n: nat, c: nat, gs: seq<Grant>, p: nat, d: nat) {
    c < n && forall k :: p <= k < |gs| ==> gs[k].index < n && Distance(c, gs[k].index, n) < d
  }

  /** One grant from cursor `c`, `s` places on: what lies beyond it is as far from the next cursor. */
  lemma OneOn(n: nat, c: nat, i: nat, d: nat)
    requires c < n && i < n && Distance(c, i, n) < d < n
    ensures var d' := d - Distance(c, i, n) - 1;
            && Slot(NextCursor(i, n), d', n) == Slot(c, d, n)
            && forall x: nat :: x < n && Distance(NextCursor(i, n), x, n) < d' ==> Distance(c, x, n) < d
  {
  }

  /**
   Scanning on from the `p`-th grant: the index `d` places after its cursor is passed by one of the
   grants, or every grant from it on stays short of it.
   */
  lemma {:induction false} PassedOrShort(n: nat, first: nat, c: nat, gs: seq<Grant>, p: nat, d: nat)
    requires Scans(n, first, c, gs) && p <= |gs| && d < n && CursorAt(n, c, gs, p) < n
    ensures var at := CursorAt(n, c, gs, p);
            Passed(first, gs, Slot(at, d, n)) || Short(n, at, gs, p, d)
    decreases |gs| - p
  {
    if p < |gs| {
      var at, g := CursorAt(n, c, gs, p), gs[p];
      assert PicksAt(n, first, c, gs, p);
      var s := Distance(at, g.index, n);
      if d <= s {
        assert g in gs && Passes(first, g, Slot(at, d, n));
      } else {
        OneOn(n, at, g.index, d);
        PassedOrShort(n, first, c, gs, p + 1, d - s - 1);
      }
    }
  }

  /**
   Over an unchanged range, between two scan grants of one address every other one is granted or
   found taken: `gs` are the scan grants after the first of the two, the last of them the second.
   */
  lemma CursorIsFair(n: nat, first: nat, i: nat, gs: seq<Grant>, j: nat)
    requires i < n && j < n && i != j
    requires Scans(n, first, NextCursor(i, n), gs) && gs != [] && gs[|gs| - 1].index == i
    ensures Passed(first, gs, j)
  {
    var c := NextCursor(i, n);
    PassedOrShort(n, first, c, gs, 0, Distance(c, j, n));
    assert Distance(c, i, n) == n - 1;
  }

  // ---------- what is taken, and who may lose an address ----------

  /** Addresses other members hold or have configured. */
  function TakenBy(cfg: Config, reg: Registry, member: string, v6: bool): set<nat> {
    (set id | id in reg.members && reg.members[id].name != member &&
      reg.members[id].Ip(v6).Some? :: reg.members[id].Ip(v6).value) +
    (set m | m in cfg.members && m != member && cfg.members[m].Pref(v6).Some? :: cfg.members[m].Pref(v6).value)
  }

  /** Every configured static address of a family. */
  function Hard(cfg: Config, v6: bool): set<nat> {
    set m | m in cfg.members && cfg.members[m].Pref(v6).Some? :: cfg.members[m].Pref(v6).value
  }

  function LastSeen(rec: Record): nat {
    if rec.lastJoin.Some? then rec.lastJoin.value else rec.created
  }

  /** An offline, unattached, configured client whose dynamic address in the range may be taken. */
  predicate MayReclaim(cfg: Config, reg: Registry, live: Liveness, member: string, v6: bool, id: NodeId) {
    && id in reg.members
    && var rec := reg.members[id];
    && rec.name != member && rec.client && id !in live.online && id !in live.attached && rec.name in cfg.members
    && (id in live.offlineSince || LastSeen(rec) + live.joinGuard <= live.now)
    && rec.Ip(v6).Some? && rec.Ip(v6).value !in Hard(cfg, v6) && cfg.Inside(v6, rec.Ip(v6).value)
  }

  function GoneSince(reg: Registry, live: Liveness, id: NodeId): nat
    requires id in reg.members
  {
    if id in live.offlineSince then live.offlineSince[id] else LastSeen(reg.members[id]) * 1000
  }

  /** Gone longer, or as long with the lower id. */
  predicate GoneLonger(reg: Registry, live: Liveness, a: NodeId, b: NodeId)
    requires a in reg.members && b in reg.members
  {
    GoneSince(reg, live, a) < GoneSince(reg, live, b) || (GoneSince(reg, live, a) == GoneSince(reg, live, b) && a < b)
  }

  /** The longest gone of those that may lose their address. */
  ghost predicate IsVictim(cfg: Config, reg: Registry, live: Liveness, member: string, v6: bool, id: NodeId) {
    && MayReclaim(cfg, reg, live, member, v6, id)
    && forall k :: k != id && MayReclaim(cfg, reg, live, member, v6, k) ==> GoneLonger(reg, live, id, k)
  }

  method FindVictim(cfg: Config, reg: Registry, live: Liveness, member: string, v6: bool) returns (r: Option<NodeId>)
    ensures r.Some? ==> IsVictim(cfg, reg, live, member, v6, r.value)
    ensures r.None? ==> forall k :: !MayReclaim(cfg, reg, live, member, v6, k)
  {
    r := None;
    var todo := reg.members.Keys;
    while todo != {}
      invariant todo <= reg.members.Keys
      invariant r.Some? ==> r.value !in todo && MayReclaim(cfg, reg, live, member, v6, r.value)
      invariant forall k :: k !in todo && MayReclaim(cfg, reg, live, member, v6, k) ==>
                              r.Some? && (k == r.value || GoneLonger(reg, live, r.value, k))
      decreases |todo|
    {
      var id := Pick(todo);
      if MayReclaim(cfg, reg, live, member, v6, id) && (r.None? || GoneLonger(reg, live, id, r.value)) {
        r := Some(id);
      }
      todo := todo - {id};
    }
  }

  // ---------- what holds of every registry ----------

  /** No two records share a name, and none an address. */
  ghost predicate Distinct(reg: Registry) {
    && (forall i <- reg.members, k <- reg.members :: reg.members[i].name == reg.members[k].name ==> i == k)
    && (forall i <- reg.members, k <- reg.members, v6: bool ::
          reg.members[i].Ip(v6).Some? && reg.members[i].Ip(v6) == reg.members[k].Ip(v6) ==> i == k)
  }

  /** Nobody holds another configured member's static address. */
  ghost predicate StaticsKept(cfg: Config, reg: Registry) {
    forall i <- reg.members, m <- cfg.members, v6: bool ::
      m != reg.members[i].name && cfg.members[m].Pref(v6).Some? ==> reg.members[i].Ip(v6) != cfg.members[m].Pref(v6)
  }

  /** Every address held lies in the tunnel range of its family. */
  ghost predicate AllInside(cfg: Config, reg: Registry) {
    forall i <- reg.members, v6: bool :: reg.members[i].Ip(v6).Some? ==> cfg.Inside(v6, reg.members[i].Ip(v6).value)
  }

  ghost predicate Inv(cfg: Config, reg: Registry) {
    cfg.Valid() && Distinct(reg) && StaticsKept(cfg, reg) && AllInside(cfg, reg)
  }

  /** An address `member` may be given: in the range, held by nobody else, nobody else's static. */
  ghost predicate FreeFor(cfg: Config, reg: Registry, member: string, v6: bool, ip: nat) {
    && cfg.Inside(v6, ip)
    && (forall i <- reg.members :: reg.members[i].name != member ==> reg.members[i].Ip(v6) != Some(ip))
    && (forall m <- cfg.members :: m != member ==> cfg.members[m].Pref(v6) != Some(ip))
  }

  lemma NotTakenIsFree(cfg: Config, reg: Registry, member: string, v6: bool, ip: nat)
    requires ip !in TakenBy(cfg, reg, member, v6) && cfg.Inside(v6, ip)
    ensures FreeFor(cfg, reg, member, v6, ip)
  {
    forall i | i in reg.members && reg.members[i].name != member && reg.members[i].Ip(v6).Some?
      ensures reg.members[i].Ip(v6).value in TakenBy(cfg, reg, member, v6)
    {
    }
    forall m | m in cfg.members && m != member && cfg.members[m].Pref(v6).Some?
      ensures cfg.members[m].Pref(v6).value in TakenBy(cfg, reg, member, v6)
    {
    }
  }

  // ---------- one allocation ----------

  function SatInc(n: nat): nat {
    if n < U64_MAX then n + 1 else n
  }

  function SpanOf(cfg: Config, v6: bool): (nat, nat) {
    if cfg.Net(v6).Some? then Span(cfg.Net(v6).value) else (0, 0)
  }

  function ScanFor(cfg: Config, reg: Registry, member: string, v6: bool): Option<nat> {
    Scan(SpanOf(cfg, v6).0, SpanOf(cfg, v6).1, TakenBy(cfg, reg, member, v6), reg.Cursor(v6))
  }

  /** A free address from the cursor on. */
  ghost predicate Scanned(cfg: Config, reg: Registry, member: string, v6: bool, after: Registry, ip: nat) {
    match ScanFor(cfg, reg, member, v6)
    case Some(i) => ip == SpanOf(cfg, v6).1 + i && after == reg.WithCursor(v6, NextCursor(i, SpanOf(cfg, v6).0))
    case None => false
  }

  function Dispossessed(reg: Registry, id: NodeId, v6: bool): Registry
    requires id in reg.members
  {
    var rec := reg.members[id];
    reg.(members := reg.members[id := rec.WithIp(v6, None).(loginGen := SatInc(rec.loginGen))])
  }

  /** Nothing free: the longest-gone client loses its address, and its credentials their generation. */
  ghost predicate Reclaimed(cfg: Config, reg: Registry, live: Liveness, member: string, v6: bool, after: Registry,
                            ip: nat)
  {
    && ScanFor(cfg, reg, member, v6).None?
    && exists id ::
         && IsVictim(cfg, reg, live, member, v6, id)
         && reg.members[id].Ip(v6) == Some(ip) && after == Dispossessed(reg, id, v6)
  }

  ghost predicate NothingLeft(cfg: Config, reg: Registry, reclaim: Option<Liveness>, member: string, v6: bool) {
    && ScanFor(cfg, reg, member, v6).None?
    && (reclaim.Some? ==> forall id :: !MayReclaim(cfg, reg, reclaim.value, member, v6, id))
  }

  ghost predicate Allocates(cfg: Config, reg: Registry, reclaim: Option<Liveness>, member: string, v6: bool,
                            after: Registry, ip: Option<nat>)
  {
    match ip
    case Some(a) =>
      || Scanned(cfg, reg, member, v6, after, a)
      || (reclaim.Some? && Reclaimed(cfg, reg, reclaim.value, member, v6, after, a))
    case None => after == reg && NothingLeft(cfg, reg, reclaim, member, v6)
  }

  /** An address is reclaimed only when every address a scan may grant is taken. */
  lemma ReclaimedOnlyWhenFull(cfg: Config, reg: Registry, live: Liveness, member: string, v6: bool, after: Registry,
                              ip: nat)
    requires Reclaimed(cfg, reg, live, member, v6, after, ip)
    ensures var (n, first) := SpanOf(cfg, v6); forall i: nat :: i < n ==> Taken(first, TakenBy(cfg, reg, member, v6), i)
    ensures exists id <- reg.members ::
              && reg.members[id].client && id !in live.online && id !in live.attached
              && ip !in Hard(cfg, v6) && reg.members[id].Ip(v6) == Some(ip)
              && var rec := reg.members[id];
              && after.members == reg.members[id := rec.WithIp(v6, None).(loginGen := SatInc(rec.loginGen))]
              && forall k :: k != id && MayReclaim(cfg, reg, live, member, v6, k) ==> GoneLonger(reg, live, id, k)
  {
    ScanFailsIffFull(SpanOf(cfg, v6).0, SpanOf(cfg, v6).1, TakenBy(cfg, reg, member, v6), reg.Cursor(v6));
    var id :| IsVictim(cfg, reg, live, member, v6, id) && reg.members[id].Ip(v6) == Some(ip) &&
      after == Dispossessed(reg, id, v6);
    assert id in reg.members;
  }

  /** When somebody was last heard of, in milliseconds: seen going offline, or else at its last join. */
  function LastHeard(rec: Record, live: Liveness, id: NodeId): nat {
    if id in live.offlineSince then live.offlineSince[id]
    else match rec.lastJoin
         case Some(t) => t * 1000
         case None => rec.created * 1000
  }

  /** A configured client, offline and attached nowhere, that was seen to leave or last joined long enough ago. */
  ghost predicate Absent(cfg: Config, rec: Record, live: Liveness, id: NodeId) {
    && rec.client && rec.name in cfg.members && id !in live.online && id !in live.attached
    && (id in live.offlineSince || LastHeard(rec, live, id) + live.joinGuard * 1000 <= live.now * 1000)
  }

  /**
   Who loses an address: an absent client other than the one that joins, holding one in the range that is
   nobody's static address, and no other such client was last heard of earlier, or as early with a lower id.
   */
  lemma VictimIff(cfg: Config, reg: Registry, live: Liveness, member: string, v6: bool, id: NodeId)
    ensures MayReclaim(cfg, reg, live, member, v6, id) <==>
            && id in reg.members && reg.members[id].name != member && Absent(cfg, reg.members[id], live, id)
            && reg.members[id].Ip(v6).Some? && cfg.Inside(v6, reg.members[id].Ip(v6).value)
            && forall m <- cfg.members :: cfg.members[m].Pref(v6) != reg.members[id].Ip(v6)
    ensures IsVictim(cfg, reg, live, member, v6, id) ==>
            forall k :: MayReclaim(cfg, reg, live, member, v6, k) && k != id ==>
              var a, b := LastHeard(reg.members[id], live, id), LastHeard(reg.members[k], live, k);
              a < b || (a == b && id < k)
  {
    if id in reg.members && reg.members[id].Ip(v6).Some? {
      var ip := reg.members[id].Ip(v6).value;
      if m :| m in cfg.members && cfg.members[m].Pref(v6) == Some(ip) {
        assert cfg.members[m].Pref(v6).value in Hard(cfg, v6);
      }
    }
  }

  /** Nodes, names and the other family's addresses are untouched. */
  ghost predicate SameBut(reg: Registry, after: Registry, v6: bool) {
    && after.members.Keys == reg.members.Keys && after.nextId == reg.nextId
    && forall i <- reg.members ::
         && after.members[i].name == reg.members[i].name
         && after.members[i].Ip(!v6) == reg.members[i].Ip(!v6)
         && (after.members[i].Ip(v6) == reg.members[i].Ip(v6) || after.members[i].Ip(v6).None?)
  }

  /** Losing addresses breaks nothing. */
  lemma FewerHeldKeeps(cfg: Config, reg: Registry, after: Registry, v6: bool)
    requires Inv(cfg, reg) && SameBut(reg, after, v6)
    ensures Inv(cfg, after)
  {
    forall i, f: bool | i in after.members
      ensures after.members[i].Ip(f) == reg.members[i].Ip(f) || after.members[i].Ip(f).None?
    {
    }
  }

  lemma AllocatesGood(cfg: Config, reg: Registry, reclaim: Option<Liveness>, member: string, v6: bool, after: Registry,
                      ip: Option<nat>)
    requires Inv(cfg, reg) && Allocates(cfg, reg, reclaim, member, v6, after, ip)
    ensures SameBut(reg, after, v6) && Inv(cfg, after)
    ensures ip.Some? ==> FreeFor(cfg, after, member, v6, ip.value)
  {
    if ip.Some? {
      if Scanned(cfg, reg, member, v6, after, ip.value) {
        SpanIsInside(cfg.Net(v6).value, ScanFor(cfg, reg, member, v6).value);
        NotTakenIsFree(cfg, reg, member, v6, ip.value);
      } else {
        var id :| IsVictim(cfg, reg, reclaim.value, member, v6, id) && reg.members[id].Ip(v6) == Some(ip.value) &&
          after == Dispossessed(reg, id, v6);
        DispossessedIsFree(cfg, reg, member, v6, id);
      }
    }
    assert SameBut(reg, after, v6);
    FewerHeldKeeps(cfg, reg, after, v6);
  }

  lemma DispossessedIsFree(cfg: Config, reg: Registry, member: string, v6: bool, id: NodeId)
    requires Inv(cfg, reg) && id in reg.members && reg.members[id].Ip(v6).Some? &&
             reg.members[id].Ip(v6).value !in Hard(cfg, v6)
    ensures FreeFor(cfg, Dispossessed(reg, id, v6), member, v6, reg.members[id].Ip(v6).value)
    ensures SameBut(reg, Dispossessed(reg, id, v6), v6)
  {
    var ip, after := reg.members[id].Ip(v6).value, Dispossessed(reg, id, v6);
    forall m | m in cfg.members && m != member
      ensures cfg.members[m].Pref(v6) != Some(ip)
    {
      if cfg.members[m].Pref(v6).Some? { assert cfg.members[m].Pref(v6).value in Hard(cfg, v6); }
    }
    forall i | i in after.members
      ensures after.members[i].Ip(v6) != Some(ip)
    {
      assert i != id ==> after.members[i] == reg.members[i];
    }
  }

  // ---------- the pair of addresses a member is given ----------

  datatype Granted = Granted(ip4: Option<nat>, ip6: Option<nat>) {
    function Ip(v6: bool): Option<nat> {
      if v6 then ip6 else ip4
    }
  }

  const LOOPBACK_V4 := 127
  const MULTICAST_V4 := 224

  /** Loopback, unspecified, multicast and broadcast addresses. */
  predicate Unroutable(v6: bool, ip: nat) {
    if v6 then ip <= 1 || ip / Pow2(Width(v6) - 8) == 255
    else
      || ip == 0 || ip / Pow2(Width(v6) - 8) == LOOPBACK_V4
      || MULTICAST_V4 <= ip / Pow2(Width(v6) - 8) < 240 || ip == Pow2(Width(v6)) - 1
  }

  lemma BlocksAre(ip: nat, b: nat, lo: nat, hi: nat)
    requires b > 0
    ensures lo <= ip / b < hi <==> lo * b <= ip < hi * b
  {
    var q := ip / b;
    DivBounds(ip, b);
    assert (q + 1) * b == q * b + b;
    if lo <= q { MoreByFactor(lo, q, b); } else { MoreByFactor(q + 1, lo, b); }
    if q < hi { MoreByFactor(q + 1, hi, b); } else { MoreByFactor(hi, q, b); }
  }

  /** Those addresses as ranges, `b` being the 256th part of the family. */
  lemma UnroutableRanges(v6: bool, ip: nat, b: nat)
    requires b == Pow2(Width(v6) - 8)
    ensures Unroutable(v6, ip) <==>
            if v6 then ip == 0 || ip == 1 || 255 * b <= ip < 256 * b
            else || ip == 0 || 127 * b <= ip < 128 * b || 224 * b <= ip < 240 * b
                 || ip == Pow2(Width(v6)) - 1
  {
    BlocksAre(ip, b, 255, 256);
    BlocksAre(ip, b, 127, 128);
    BlocksAre(ip, b, 224, 240);
  }

  function Want(cfg: Config, member: string, preferred: Option<nat>, v6: bool): Option<nat> {
    if preferred.Some? then preferred
    else if member in cfg.members then cfg.members[member].Pref(v6) else None
  }

  /** Why a wanted address is refused, if it is. */
  function Refusal(cfg: Config, reg: Registry, member: string, v6: bool, want: Option<nat>): Option<Error> {
    if want.None? then None
    else if Unroutable(v6, want.value) then Some(Unusable)
    else if !cfg.Inside(v6, want.value) then Some(OutsideNetwork)
    else if want.value in TakenBy(cfg, reg, member, v6) then Some(InUse)
    else None
  }

  /** Held by somebody else's record, or configured for somebody else. */
  ghost predicate Elsewhere(cfg: Config, reg: Registry, member: string, v6: bool, ip: nat) {
    || (exists i <- reg.members :: reg.members[i].name != member && reg.members[i].Ip(v6) == Some(ip))
    || (exists m <- cfg.members :: m != member && cfg.members[m].Pref(v6) == Some(ip))
  }

  lemma TakenIff(cfg: Config, reg: Registry, member: string, v6: bool, ip: nat)
    ensures ip in TakenBy(cfg, reg, member, v6) <==> Elsewhere(cfg, reg, member, v6, ip)
    ensures cfg.Inside(v6, ip) ==> (FreeFor(cfg, reg, member, v6, ip) <==> !Elsewhere(cfg, reg, member, v6, ip))
  {
    if Elsewhere(cfg, reg, member, v6, ip) {
      if i :| i in reg.members && reg.members[i].name != member && reg.members[i].Ip(v6) == Some(ip) {
        assert reg.members[i].Ip(v6).value in TakenBy(cfg, reg, member, v6);
      } else {
        var m :| m in cfg.members && m != member && cfg.members[m].Pref(v6) == Some(ip);
        assert cfg.members[m].Pref(v6).value in TakenBy(cfg, reg, member, v6);
      }
    }
  }

  /** A wanted address is refused for exactly one reason, and granted exactly if it is free for the member. */
  lemma RefusedIff(cfg: Config, reg: Registry, member: string, v6: bool, ip: nat)
    ensures var r := Refusal(cfg, reg, member, v6, Some(ip));
            && (r == Some(Unusable) <==> Unroutable(v6, ip))
            && (r == Some(OutsideNetwork) <==> !Unroutable(v6, ip) && !cfg.Inside(v6, ip))
            && (r == Some(InUse) <==>
                  !Unroutable(v6, ip) && cfg.Inside(v6, ip) && Elsewhere(cfg, reg, member, v6, ip))
            && (r == None <==> !Unroutable(v6, ip) && FreeFor(cfg, reg, member, v6, ip))
  {
    TakenIff(cfg, reg, member, v6, ip);
  }

  ghost predicate IsRecordOf(reg: Registry, name: string, id: NodeId) {
    id in reg.members && reg.members[id].name == name
  }

  /** The member keeps an address it already holds while it is in the range. */
  ghost predicate Keeps(cfg: Config, reg: Registry, member: string, v6: bool, ip: Option<nat>) {
    exists id :: IsRecordOf(reg, member, id) && reg.members[id].Ip(v6) == ip && ip.Some? && cfg.Inside(v6, ip.value)
  }

  /** One family: the wanted address, else the one held, else a new one. */
  ghost predicate Chooses(cfg: Config, reg: Registry, reclaim: Option<Liveness>, member: string, v6: bool,
                          want: Option<nat>, after: Registry, ip: Option<nat>)
  {
    if want.Some? then after == reg && ip == want
    else if exists a :: Keeps(cfg, reg, member, v6, a) then after == reg && Keeps(cfg, reg, member, v6, ip)
    else Allocates(cfg, reg, reclaim, member, v6, after, ip)
  }

  lemma ChoosesGood(cfg: Config, reg: Registry, reclaim: Option<Liveness>, member: string, v6: bool,
                    want: Option<nat>, after: Registry, ip: Option<nat>)
    requires Inv(cfg, reg) && Refusal(cfg, reg, member, v6, want).None?
    requires Chooses(cfg, reg, reclaim, member, v6, want, after, ip)
    ensures SameBut(reg, after, v6) && Inv(cfg, after)
    ensures ip.Some? ==> FreeFor(cfg, after, member, v6, ip.value)
  {
    if want.Some? {
      NotTakenIsFree(cfg, reg, member, v6, want.value);
    } else if exists a :: Keeps(cfg, reg, member, v6, a) {
      var id :| IsRecordOf(reg, member, id) && reg.members[id].Ip(v6) == ip && ip.Some?;
      KeptIsFree(cfg, reg, member, v6, id);
    } else {
      AllocatesGood(cfg, reg, reclaim, member, v6, after, ip);
    }
  }

  lemma KeptIsFree(cfg: Config, reg: Registry, member: string, v6: bool, id: NodeId)
    requires Inv(cfg, reg) && IsRecordOf(reg, member, id) && reg.members[id].Ip(v6).Some?
    ensures FreeFor(cfg, reg, member, v6, reg.members[id].Ip(v6).value)
  {
    var ip := reg.members[id].Ip(v6).value;
    forall m | m in cfg.members && m != member
      ensures cfg.members[m].Pref(v6) != Some(ip)
    {
      assert cfg.members[m].Pref(v6).Some? ==> reg.members[id].Ip(v6) != cfg.members[m].Pref(v6);
    }
  }

  /** A successful allocation: IPv4 first, which must yield an address, then IPv6 as available. */
  ghost predicate Grants(cfg: Config, reg: Registry, reclaim: Option<Liveness>, member: string,
                         want4: Option<nat>, want6: Option<nat>, after: Registry, g: Granted)
  {
    && g.ip4.Some?
    && exists mid ::
         && Chooses(cfg, reg, reclaim, member, false, want4, mid, g.ip4)
         && Chooses(cfg, mid, reclaim, member, true, want6, after, g.ip6)
  }

  /** IPv4 has nothing to give. */
  ghost predicate OutOfAddresses(cfg: Config, reg: Registry, reclaim: Option<Liveness>, member: string,
                                 want4: Option<nat>)
  {
    && want4.None? && !(exists a :: Keeps(cfg, reg, member, false, a))
    && NothingLeft(cfg, reg, reclaim, member, false)
  }

  /** What an allocation does to the registry, and when it fails; a failure changes nothing. */
  ghost predicate Allocation(cfg: Config, reg: Registry, reclaim: Option<Liveness>, member: string,
                             want4: Option<nat>, want6: Option<nat>, after: Registry, r: Result<Granted, Error>)
  {
    if member !in cfg.members then r == Err(NotConfigured) && after == reg
    else if Refusal(cfg, reg, member, false, want4).Some?
      then r == Err(Refusal(cfg, reg, member, false, want4).value) && after == reg
    else if Refusal(cfg, reg, member, true, want6).Some?
      then r == Err(Refusal(cfg, reg, member, true, want6).value) && after == reg
    else if OutOfAddresses(cfg, reg, reclaim, member, want4) then r == Err(Exhausted) && after == reg
    else r.Ok? && Grants(cfg, reg, reclaim, member, want4, want6, after, r.value)
  }

  lemma SameTaken(cfg: Config, reg: Registry, after: Registry, member: string, v6: bool)
    requires SameBut(reg, after, v6)
    ensures TakenBy(cfg, after, member, !v6) == TakenBy(cfg, reg, member, !v6)
  {
    forall i | i in reg.members
      ensures after.members[i].name == reg.members[i].name && after.members[i].Ip(!v6) == reg.members[i].Ip(!v6)
    {
    }
    var a := set id | id in after.members && after.members[id].name != member &&
      after.members[id].Ip(!v6).Some? :: after.members[id].Ip(!v6).value;
    var b := set id | id in reg.members && reg.members[id].name != member &&
      reg.members[id].Ip(!v6).Some? :: reg.members[id].Ip(!v6).value;
    assert a == b;
  }

  lemma StillFree(cfg: Config, reg: Registry, after: Registry, member: string, v6: bool, ip: nat)
    requires SameBut(reg, after, v6) && FreeFor(cfg, reg, member, !v6, ip)
    ensures FreeFor(cfg, after, member, !v6, ip)
  {
  }

  lemma GrantsGood(cfg: Config, reg: Registry, reclaim: Option<Liveness>, member: string,
                   want4: Option<nat>, want6: Option<nat>, after: Registry, g: Granted)
    requires Inv(cfg, reg) && Grants(cfg, reg, reclaim, member, want4, want6, after, g)
    requires Refusal(cfg, reg, member, false, want4).None? && Refusal(cfg, reg, member, true, want6).None?
    ensures Inv(cfg, after) && after.members.Keys == reg.members.Keys
    ensures forall i <- reg.members :: after.members[i].name == reg.members[i].name
    ensures g.ip4.Some? ==> FreeFor(cfg, after, member, false, g.ip4.value)
    ensures g.ip6.Some? ==> FreeFor(cfg, after, member, true, g.ip6.value)
  {
    var mid :| && Chooses(cfg, reg, reclaim, member, false, want4, mid, g.ip4)
               && Chooses(cfg, mid, reclaim, member, true, want6, after, g.ip6);
    ChoosesGood(cfg, reg, reclaim, member, false, want4, mid, g.ip4);
    SameTaken(cfg, reg, mid, member, false);
    ChoosesGood(cfg, mid, reclaim, member, true, want6, after, g.ip6);
    StillFree(cfg, mid, after, member, true, g.ip4.value);
  }

  // ---------- joins and configuration edits ----------

  function Max(a: nat, b: nat): nat {
    if a < b then b else a
  }

  function Above(used: set<nat>, id: nat): set<nat> {
    set k | k in used && k >= id
  }

  lemma FewerAbove(used: set<nat>, id: nat)
    requires id in used
    ensures |Above(used, id + 1)| < |Above(used, id)|
  {
    assert Above(used, id + 1) == Above(used, id) - {id};
  }

  /** The first id from `id` on that was never used. */
  function FirstUnused(used: set<nat>, id: nat): (r: nat)
    ensures r !in used && r >= id && forall k :: id <= k < r ==> k in used
    decreases |Above(used, id)|
  {
    if id !in used then id else
    FewerAbove(used, id);
    FirstUnused(used, id + 1)
  }

  /** A record is never renumbered; the counter of ids only ever moves on. */
  ghost predicate EnrolsAs(reg: Registry, name: string, id: NodeId) {
    if exists k :: IsRecordOf(reg, name, k) then IsRecordOf(reg, name, id)
    else id == FirstUnused(reg.members.Keys, Max(reg.nextId, 1))
  }

  function Enrolled(reg: Registry, id: NodeId, name: string, client: bool, g: Granted, now: nat,
                    replaced: bool): Registry
  {
    var rec := if id in reg.members then reg.members[id] else Record(name, client, false, None, None, 0, None, now);
    reg.(members := reg.members[id := rec.(
           name := name, client := client, ip4 := g.ip4, ip6 := g.ip6, lastJoin := Some(now),
           loginGen := if replaced then rec.loginGen + 1 else rec.loginGen)],
         nextId := Max(reg.nextId, id + 1))
  }

  // The parts of a join request that matter here; `saved` is whether the registry could be committed.
  datatype JoinRequest = JoinRequest(name: string, reclaim: Option<Liveness>, now: nat, replaced: bool, saved: bool)

  ghost predicate IsDisabled(reg: Registry, name: string) {
    exists id :: IsRecordOf(reg, name, id) && reg.members[id].disabled
  }

  /** The whole join: refused, failed or not saved, it leaves the registry as it was. */
  ghost predicate Joins(cfg: Config, reg: Registry, q: JoinRequest, after: Registry) {
    if q.name !in cfg.members || IsDisabled(reg, q.name) then after == reg
    else exists mid, r: Result<Granted, Error> :: JoinsVia(cfg, reg, q, mid, r, after)
  }

  /** `mid` is the registry after the addresses were allocated, `r` what was granted. */
  ghost predicate JoinsVia(cfg: Config, reg: Registry, q: JoinRequest, mid: Registry, r: Result<Granted, Error>,
                           after: Registry)
    requires q.name in cfg.members
  {
    var m := cfg.members[q.name];
    && (if m.wantIp then Allocation(cfg, reg, q.reclaim, q.name, m.pref4, m.pref6, mid, r)
        else mid == reg && r == Ok(Granted(None, None)))
    && if r.Ok? && q.saved
       then
         exists id ::
           EnrolsAs(mid, q.name, id) && after == Enrolled(mid, id, q.name, m.client, r.value, q.now, q.replaced)
       else after == reg
  }

  lemma EnrolledKeeps(cfg: Config, reg: Registry, id: NodeId, name: string, client: bool, g: Granted, now: nat,
                      replaced: bool)
    requires Inv(cfg, reg) && EnrolsAs(reg, name, id)
    requires g.ip4.Some? ==> FreeFor(cfg, reg, name, false, g.ip4.value)
    requires g.ip6.Some? ==> FreeFor(cfg, reg, name, true, g.ip6.value)
    ensures Inv(cfg, Enrolled(reg, id, name, client, g, now, replaced))
  {
    var after := Enrolled(reg, id, name, client, g, now, replaced);
    assert forall i <- reg.members :: i != id ==> after.members[i] == reg.members[i] && reg.members[i].name != name by {
      if exists k :: IsRecordOf(reg, name, k) {
        assert IsRecordOf(reg, name, id);
      } else {
        forall i | i in reg.members
          ensures reg.members[i].name != name
        {
          assert !IsRecordOf(reg, name, i);
        }
      }
    }
    OwnAddressKeeps(cfg, reg, id, name, after, false, g.ip4);
    OwnAddressKeeps(cfg, reg, id, name, after, true, g.ip6);
    FamiliesKeep(cfg, reg, id, name, after);
  }

  /** One family of the registry after the member `id` was given `ip`. */
  ghost predicate FamilyOk(cfg: Config, reg: Registry, v6: bool) {
    forall i <- reg.members :: reg.members[i].Ip(v6).Some? ==>
      && cfg.Inside(v6, reg.members[i].Ip(v6).value)
      && (forall k <- reg.members :: reg.members[i].Ip(v6) == reg.members[k].Ip(v6) ==> i == k)
      && (forall m <- cfg.members :: m != reg.members[i].name ==> reg.members[i].Ip(v6) != cfg.members[m].Pref(v6))
  }

  lemma OwnAddressKeeps(cfg: Config, reg: Registry, id: NodeId, name: string, after: Registry, v6: bool,
                        ip: Option<nat>)
    requires Inv(cfg, reg) && after.members.Keys == reg.members.Keys + {id}
    requires forall i <- reg.members :: i != id ==> after.members[i] == reg.members[i] && reg.members[i].name != name
    requires after.members[id].name == name && after.members[id].Ip(v6) == ip
    requires ip.Some? ==> FreeFor(cfg, reg, name, v6, ip.value)
    ensures FamilyOk(cfg, after, v6)
  {
    forall i | i in after.members && after.members[i].Ip(v6).Some?
      ensures cfg.Inside(v6, after.members[i].Ip(v6).value)
      ensures forall k <- after.members :: after.members[i].Ip(v6) == after.members[k].Ip(v6) ==> i == k
      ensures forall m <- cfg.members :: m != after.members[i].name ==>
              after.members[i].Ip(v6) != cfg.members[m].Pref(v6)
    {
      if i != id {
        assert reg.members[i].Ip(v6) == after.members[i].Ip(v6);
        assert ip.Some? ==> reg.members[i].Ip(v6) != ip;
        forall m | m in cfg.members && m != after.members[i].name
          ensures after.members[i].Ip(v6) != cfg.members[m].Pref(v6)
        {
          assert cfg.members[m].Pref(v6).Some? ==> reg.members[i].Ip(v6) != cfg.members[m].Pref(v6);
        }
      }
    }
  }

  lemma FamiliesKeep(cfg: Config, reg: Registry, id: NodeId, name: string, after: Registry)
    requires Inv(cfg, reg) && after.members.Keys == reg.members.Keys + {id} && after.members[id].name == name
    requires forall i <- reg.members :: i != id ==> after.members[i] == reg.members[i] && reg.members[i].name != name
    requires FamilyOk(cfg, after, false) && FamilyOk(cfg, after, true)
    ensures Inv(cfg, after)
  {
    assert forall v6: bool :: FamilyOk(cfg, after, v6);
    forall i, k, v6: bool | i in after.members && k in after.members && after.members[i].Ip(v6).Some? &&
      after.members[i].Ip(v6) == after.members[k].Ip(v6)
      ensures i == k
    {
      assert FamilyOk(cfg, after, v6);
    }
    forall i, m, v6: bool | i in after.members && m in cfg.members && m != after.members[i].name &&
      cfg.members[m].Pref(v6).Some?
      ensures after.members[i].Ip(v6) != cfg.members[m].Pref(v6)
    {
      assert FamilyOk(cfg, after, v6);
    }
    forall i, v6: bool | i in after.members && after.members[i].Ip(v6).Some?
      ensures cfg.Inside(v6, after.members[i].Ip(v6).value)
    {
      assert FamilyOk(cfg, after, v6);
    }
  }

  lemma JoinKeeps(cfg: Config, reg: Registry, q: JoinRequest, after: Registry)
    requires Inv(cfg, reg) && Joins(cfg, reg, q, after)
    ensures Inv(cfg, after)
  {
    if after != reg {
      var m := cfg.members[q.name];
      var mid, r: Result<Granted, Error> :| JoinsVia(cfg, reg, q, mid, r, after);
      var id :| EnrolsAs(mid, q.name, id) && after == Enrolled(mid, id, q.name, m.client, r.value, q.now, q.replaced);
      if m.wantIp {
        GrantsGood(cfg, reg, q.reclaim, q.name, m.pref4, m.pref6, mid, r.value);
      }
      EnrolledKeeps(cfg, mid, id, q.name, m.client, r.value, q.now, q.replaced);
    }
  }

  /** The check on a proposed configuration: what is held stays inside, and statics are free. */
  ghost predicate Assignable(cfg: Config, reg: Registry) {
    AllInside(cfg, reg) && StaticsKept(cfg, reg)
  }

  predicate HoldsInside(cfg: Config, rec: Record) {
    && (rec.ip4.Some? ==> cfg.Inside(false, rec.ip4.value))
    && (rec.ip6.Some? ==> cfg.Inside(true, rec.ip6.value))
  }

  predicate Collides(name: string, m: MemberCfg, rec: Record) {
    rec.name != name && ((m.pref4.Some? && rec.ip4 == m.pref4) || (m.pref6.Some? && rec.ip6 == m.pref6))
  }

  method ValidateAssignments(cfg: Config, reg: Registry) returns (ok: bool)
    ensures ok <==> Assignable(cfg, reg)
  {
    var todo := reg.members.Keys;
    while todo != {}
      invariant todo <= reg.members.Keys
      invariant forall i <- reg.members.Keys - todo :: HoldsInside(cfg, reg.members[i])
      decreases |todo|
    {
      var i := Pick(todo);
      if !HoldsInside(cfg, reg.members[i]) {
        NotInside(cfg, reg, i);
        return false;
      }
      todo := todo - {i};
    }
    var names := cfg.members.Keys;
    while names != {}
      invariant names <= cfg.members.Keys
      invariant forall m <- cfg.members.Keys - names, i <- reg.members :: !Collides(m, cfg.members[m], reg.members[i])
      decreases |names|
    {
      var m := Pick(names);
      if i :| i in reg.members && Collides(m, cfg.members[m], reg.members[i]) {
        NotKept(cfg, reg, i, m);
        return false;
      }
      names := names - {m};
    }
    ok := true;
    forall i, v6: bool | i in reg.members && reg.members[i].Ip(v6).Some?
      ensures cfg.Inside(v6, reg.members[i].Ip(v6).value)
    {
      assert HoldsInside(cfg, reg.members[i]);
    }
    forall i, m, v6: bool | i in reg.members && m in cfg.members && m != reg.members[i].name &&
      cfg.members[m].Pref(v6).Some?
      ensures reg.members[i].Ip(v6) != cfg.members[m].Pref(v6)
    {
      assert !Collides(m, cfg.members[m], reg.members[i]);
    }
  }

  lemma NotInside(cfg: Config, reg: Registry, i: NodeId)
    requires i in reg.members && !HoldsInside(cfg, reg.members[i])
    ensures !AllInside(cfg, reg)
  {
    var rec := reg.members[i];
    var v6 := !(rec.ip4.Some? && !cfg.Inside(false, rec.ip4.value));
    assert rec.Ip(v6).Some? && !cfg.Inside(v6, rec.Ip(v6).value);
  }

  lemma NotKept(cfg: Config, reg: Registry, i: NodeId, m: string)
    requires i in reg.members && m in cfg.members && Collides(m, cfg.members[m], reg.members[i])
    ensures !StaticsKept(cfg, reg)
  {
    var v6 := !(cfg.members[m].pref4.Some? && reg.members[i].ip4 == cfg.members[m].pref4);
    assert cfg.members[m].Pref(v6).Some? && reg.members[i].Ip(v6) == cfg.members[m].Pref(v6);
  }

  // ---------- whole runs ----------

  datatype State = State(cfg: Config, reg: Registry)

  datatype Event =
    | Join(q: JoinRequest)
    | Edit(cfg: Config)
    | Delete(name: string)
    | Mark(id: NodeId, disabled: bool, loginGen: nat)

  ghost predicate Next(s: State, e: Event, t: State) {
    match e
    case Join(q) => t.cfg == s.cfg && Joins(s.cfg, s.reg, q, t.reg)
    case Edit(cfg) => if cfg.Valid() && Assignable(cfg, s.reg) then t == s.(cfg := cfg) else t == s
    case Delete(name) => t == State(s.cfg.(members := s.cfg.members - {name}), Without(s.reg, name))
    case Mark(id, disabled, loginGen) =>
      if id in s.reg.members
      then
        var rec := s.reg.members[id].(disabled := disabled, loginGen := loginGen);
        t == s.(reg := s.reg.(members := s.reg.members[id := rec]))
      else t == s
  }

  function Without(reg: Registry, name: string): Registry {
    reg.(members := map i | i in reg.members && reg.members[i].name != name :: reg.members[i])
  }

  lemma NextKeeps(s: State, e: Event, t: State)
    requires Inv(s.cfg, s.reg) && Next(s, e, t)
    ensures Inv(t.cfg, t.reg)
  {
    match e
    case Join(q) => JoinKeeps(s.cfg, s.reg, q, t.reg);
    case Edit(cfg) =>
    case Delete(name) => DeleteKeeps(s.cfg, s.reg, name);
    case Mark(id, disabled, loginGen) => SameAddressesKeep(s.cfg, s.reg, t.reg);
  }

  lemma DeleteKeeps(cfg: Config, reg: Registry, name: string)
    requires Inv(cfg, reg)
    ensures Inv(cfg.(members := cfg.members - {name}), Without(reg, name))
  {
    var less, after := cfg.(members := cfg.members - {name}), Without(reg, name);
    assert forall i <- after.members :: i in reg.members && after.members[i] == reg.members[i];
    assert forall m <- less.members :: m in cfg.members && less.members[m] == cfg.members[m];
    assert less.Valid();
    assert AllInside(less, after) by {
      forall i, v6: bool | i in after.members && after.members[i].Ip(v6).Some?
        ensures less.Inside(v6, after.members[i].Ip(v6).value)
      {
        assert cfg.Inside(v6, reg.members[i].Ip(v6).value);
      }
    }
  }

  lemma SameAddressesKeep(cfg: Config, reg: Registry, after: Registry)
    requires Inv(cfg, reg) && after.members.Keys == reg.members.Keys
    requires forall i <- reg.members ::
               && after.members[i].name == reg.members[i].name
               && after.members[i].ip4 == reg.members[i].ip4 && after.members[i].ip6 == reg.members[i].ip6
    ensures Inv(cfg, after)
  {
    forall i, v6: bool | i in reg.members
      ensures after.members[i].Ip(v6) == reg.members[i].Ip(v6)
    {
    }
  }

  ghost predicate Follows(s: State, t: State) {
    exists e: Event :: Next(s, e, t)
  }

  ghost predicate IsRun(run: seq<State>) {
    && |run| > 0 && run[0].cfg.Valid() && run[0].reg.members == map[]
    && forall k {:trigger StepAt(run, k)} :: 0 < k < |run| ==> StepAt(run, k)
  }

  ghost predicate StepAt(run: seq<State>, k: nat)
    requires 0 < k < |run|
  {
    Follows(run[k - 1], run[k])
  }

  /**
   Over any interleaving of joins, reclaims and accepted configuration edits, no two records hold
   one address, nobody holds another member's static address, and every address is in its range.
   */
  lemma {:induction false} AddressesNeverCollide(run: seq<State>, k: nat)
    requires IsRun(run) && k < |run|
    ensures Distinct(run[k].reg) && StaticsKept(run[k].cfg, run[k].reg) && AllInside(run[k].cfg, run[k].reg) &&
            run[k].cfg.Valid()
  {
    if k > 0 {
      AddressesNeverCollide(run, k - 1);
      assert StepAt(run, k);
      var e: Event :| Next(run[k - 1], e, run[k]);
      NextKeeps(run[k - 1], e, run[k]);
    }
  }

  // ---------- what a join writes down ----------

  /** The record of a member after a join at `now`, given what it was before, if anything. */
  ghost predicate Written(m: MemberCfg, was: Option<Record>, q: JoinRequest, rec: Record) {
    && rec.name == q.name && rec.client == m.client && rec.lastJoin == Some(q.now)
    && (was.Some? ==>
          && rec.disabled == was.value.disabled && rec.created == was.value.created
          && rec.loginGen == was.value.loginGen + if q.replaced then 1 else 0)
    && (was.None? ==> !rec.disabled && rec.created == q.now && rec.loginGen == if q.replaced then 1 else 0)
    && (!m.wantIp ==> rec.ip4.None? && rec.ip6.None?)
  }

  /** Nothing of a record but its addresses and its login generation changed. */
  predicate SameMember(a: Record, b: Record) {
    a.name == b.name && a.client == b.client && a.disabled == b.disabled && a.lastJoin == b.lastJoin &&
      a.created == b.created
  }

  /** Allocating for a member leaves its own record alone, and the identity of every other. */
  lemma AllocationTouches(cfg: Config, reg: Registry, q: JoinRequest, mid: Registry, r: Result<Granted, Error>,
                          i: NodeId)
    requires q.name in cfg.members && i in reg.members
    requires var m := cfg.members[q.name]; Allocation(cfg, reg, q.reclaim, q.name, m.pref4, m.pref6, mid, r)
    ensures mid.members.Keys == reg.members.Keys && mid.nextId == reg.nextId
    ensures SameMember(reg.members[i], mid.members[i])
    ensures reg.members[i].name == q.name ==> mid.members[i] == reg.members[i]
  {
    var m := cfg.members[q.name];
    if r.Ok? {
      var one :| && Chooses(cfg, reg, q.reclaim, q.name, false, m.pref4, one, r.value.ip4)
                 && Chooses(cfg, one, q.reclaim, q.name, true, m.pref6, mid, r.value.ip6);
      ChooseTouches(cfg, reg, q.reclaim, q.name, false, m.pref4, one, r.value.ip4, i);
      ChooseTouches(cfg, one, q.reclaim, q.name, true, m.pref6, mid, r.value.ip6, i);
    }
  }

  lemma ChooseTouches(cfg: Config, reg: Registry, reclaim: Option<Liveness>, member: string, v6: bool,
                      want: Option<nat>, after: Registry, ip: Option<nat>, i: NodeId)
    requires Chooses(cfg, reg, reclaim, member, v6, want, after, ip) && i in reg.members
    ensures after.members.Keys == reg.members.Keys && after.nextId == reg.nextId
    ensures SameMember(reg.members[i], after.members[i])
    ensures reg.members[i].name == member ==> after.members[i] == reg.members[i]
  {
    if after.members != reg.members {
      var k :| IsVictim(cfg, reg, reclaim.value, member, v6, k) && after == Dispossessed(reg, k, v6);
    }
  }

  lemma NobodyYet(cfg: Config, reg: Registry, q: JoinRequest, mid: Registry, r: Result<Granted, Error>)
    requires q.name in cfg.members && reg.members == map[]
    requires var m := cfg.members[q.name]; Allocation(cfg, reg, q.reclaim, q.name, m.pref4, m.pref6, mid, r)
    ensures mid.members == map[] && mid.nextId == reg.nextId
  {
    var m := cfg.members[q.name];
    if r.Ok? {
      var one :| && Chooses(cfg, reg, q.reclaim, q.name, false, m.pref4, one, r.value.ip4)
                 && Chooses(cfg, one, q.reclaim, q.name, true, m.pref6, mid, r.value.ip6);
    }
  }

  lemma JoinMid(cfg: Config, reg: Registry, q: JoinRequest, mid: Registry, r: Result<Granted, Error>, after: Registry)
    requires q.name in cfg.members && JoinsVia(cfg, reg, q, mid, r, after)
    ensures mid.members.Keys == reg.members.Keys && mid.nextId == reg.nextId
    ensures forall i <- reg.members :: SameMember(reg.members[i], mid.members[i])
    ensures forall i <- reg.members :: reg.members[i].name == q.name ==> mid.members[i] == reg.members[i]
  {
    if cfg.members[q.name].wantIp {
      if reg.members == map[] {
        NobodyYet(cfg, reg, q, mid, r);
      }
      forall i | i in reg.members
        ensures mid.members.Keys == reg.members.Keys && mid.nextId == reg.nextId
        ensures SameMember(reg.members[i], mid.members[i])
        ensures reg.members[i].name == q.name ==> mid.members[i] == reg.members[i]
      {
        AllocationTouches(cfg, reg, q, mid, r, i);
      }
      SomeKey(reg.members.Keys, mid.members.Keys, reg.members == map[]);
    }
  }

  lemma SomeKey<T>(a: set<T>, b: set<T>, none: bool)
    requires (none ==> a == {} && b == {}) && (!none ==> a != {}) && forall i <- a :: b == a
    ensures a == b
  {
  }

  /**
   What a join writes: nothing unless the member is configured, not disabled and the registry was saved;
   else its own record, under its old id or one past every id handed out, and of other records at most an
   address and the login generation that went with it.
   */
  lemma JoinRecords(cfg: Config, reg: Registry, q: JoinRequest, after: Registry)
    requires Joins(cfg, reg, q, after)
    ensures after != reg ==>
              && q.saved && q.name in cfg.members && !IsDisabled(reg, q.name)
              && exists id :: JoinedAs(cfg.members[q.name], reg, q, after, id)
  {
    if after != reg {
      var m := cfg.members[q.name];
      var mid, r: Result<Granted, Error> :| JoinsVia(cfg, reg, q, mid, r, after);
      JoinMid(cfg, reg, q, mid, r, after);
      var id :| EnrolsAs(mid, q.name, id) && after == Enrolled(mid, id, q.name, m.client, r.value, q.now, q.replaced);
      EnrolmentRecords(m, reg, q, mid, r.value, id);
    }
  }

  lemma EnrolmentRecords(m: MemberCfg, reg: Registry, q: JoinRequest, mid: Registry, g: Granted, id: NodeId)
    requires mid.members.Keys == reg.members.Keys && mid.nextId == reg.nextId && EnrolsAs(mid, q.name, id)
    requires forall i <- reg.members :: SameMember(reg.members[i], mid.members[i])
    requires forall i <- reg.members :: reg.members[i].name == q.name ==> mid.members[i] == reg.members[i]
    requires !m.wantIp ==> g == Granted(None, None)
    ensures JoinedAs(m, reg, q, Enrolled(mid, id, q.name, m.client, g, q.now, q.replaced), id)
  {
    if k :| IsRecordOf(mid, q.name, k) {
      assert SameMember(reg.members[k], mid.members[k]);
      assert IsRecordOf(reg, q.name, id) by { assert SameMember(reg.members[id], mid.members[id]); }
    } else {
      forall i | i in reg.members
        ensures reg.members[i].name != q.name
      {
        assert SameMember(reg.members[i], mid.members[i]) && !IsRecordOf(mid, q.name, i);
      }
    }
  }

  ghost predicate JoinedAs(m: MemberCfg, reg: Registry, q: JoinRequest, after: Registry, id: NodeId) {
    && id in after.members && after.members.Keys == reg.members.Keys + {id}
    && Written(m, if id in reg.members then Some(reg.members[id]) else None, q, after.members[id])
    && (if id in reg.members then reg.members[id].name == q.name
        else id >= reg.nextId && forall i <- reg.members :: reg.members[i].name != q.name)
    && after.nextId > id && after.nextId >= reg.nextId
    && forall i <- reg.members :: i != id ==> SameMember(reg.members[i], after.members[i])
  }

  // ---------- ids over whole runs ----------

  /** Every id in use is behind the counter. */
  ghost predicate Counted(reg: Registry) {
    forall i <- reg.members :: i < reg.nextId
  }

  lemma NextCounts(s: State, e: Event, t: State)
    requires Inv(s.cfg, s.reg) && Counted(s.reg) && Next(s, e, t)
    ensures Counted(t.reg) && s.reg.nextId <= t.reg.nextId
    ensures forall i <- t.reg.members :: i < s.reg.nextId ==>
              i in s.reg.members && t.reg.members[i].name == s.reg.members[i].name
  {
    if e.Join? {
      JoinRecords(s.cfg, s.reg, e.q, t.reg);
    }
  }

  lemma {:induction false} RunCounts(run: seq<State>, k: nat)
    requires IsRun(run) && k < |run|
    ensures Counted(run[k].reg)
  {
    if k > 0 {
      RunCounts(run, k - 1);
      AddressesNeverCollide(run, k - 1);
      assert StepAt(run, k);
      var e: Event :| Next(run[k - 1], e, run[k]);
      NextCounts(run[k - 1], e, run[k]);
    }
  }

  lemma {:induction false} OldIdsStay(run: seq<State>, a: nat, b: nat, id: NodeId)
    requires IsRun(run) && a <= b < |run| && id < run[a].reg.nextId && id in run[b].reg.members
    ensures run[a].reg.nextId <= run[b].reg.nextId
    ensures id in run[a].reg.members && run[a].reg.members[id].name == run[b].reg.members[id].name
    decreases b
  {
    if a < b {
      CounterGrows(run, a, b - 1);
      RunCounts(run, b - 1);
      AddressesNeverCollide(run, b - 1);
      assert StepAt(run, b);
      var e: Event :| Next(run[b - 1], e, run[b]);
      NextCounts(run[b - 1], e, run[b]);
      OldIdsStay(run, a, b - 1, id);
    }
  }

  lemma {:induction false} CounterGrows(run: seq<State>, a: nat, b: nat)
    requires IsRun(run) && a <= b < |run|
    ensures run[a].reg.nextId <= run[b].reg.nextId
    decreases b
  {
    if a < b {
      CounterGrows(run, a, b - 1);
      RunCounts(run, b - 1);
      AddressesNeverCollide(run, b - 1);
      assert StepAt(run, b);
      var e: Event :| Next(run[b - 1], e, run[b]);
      NextCounts(run[b - 1], e, run[b]);
    }
  }

  /**
   In every run an id belongs to one name for good: of two states that have a record under it both
   records have the same name, and an id whose record was deleted never comes back.
   */
  lemma IdsNeverReused(run: seq<State>, a: nat, k: nat, b: nat, id: NodeId)
    requires IsRun(run) && a <= k <= b < |run| && id in run[a].reg.members && id in run[b].reg.members
    ensures id in run[k].reg.members && run[a].reg.members[id].name == run[b].reg.members[id].name
  {
    RunCounts(run, a);
    CounterGrows(run, a, k);
    OldIdsStay(run, a, b, id);
    OldIdsStay(run, k, b, id);
  }

  // ---------- static addresses over whole runs ----------

  /** The member has a static IPv4 address, and its record holds every static address configured for it. */
  ghost predicate Fixed(s: State, name: string) {
    && name in s.cfg.members && s.cfg.members[name].wantIp && s.cfg.members[name].pref4.Some?
    && exists id :: IsRecordOf(s.reg, name, id) && HoldsStatics(s.cfg.members[name], s.reg.members[id])
  }

  ghost predicate HoldsStatics(m: MemberCfg, rec: Record) {
    forall v6: bool :: m.Pref(v6).Some? ==> rec.Ip(v6) == m.Pref(v6) && !Unroutable(v6, m.Pref(v6).value)
  }

  lemma FixedIsNotRefused(s: State, name: string, v6: bool)
    requires Inv(s.cfg, s.reg) && Fixed(s, name)
    ensures Refusal(s.cfg, s.reg, name, v6, s.cfg.members[name].Pref(v6)).None?
  {
    var m := s.cfg.members[name];
    if m.Pref(v6).Some? {
      var id :| IsRecordOf(s.reg, name, id) && HoldsStatics(m, s.reg.members[id]);
      var ip := m.Pref(v6).value;
      assert s.reg.members[id].Ip(v6) == Some(ip);
      RefusedIff(s.cfg, s.reg, name, v6, ip);
      assert !Elsewhere(s.cfg, s.reg, name, v6, ip);
    }
  }

  /** A member that holds its static addresses is granted them again. */
  lemma FixedIsGranted(s: State, q: JoinRequest, mid: Registry, r: Result<Granted, Error>, after: Registry)
    requires Inv(s.cfg, s.reg) && Fixed(s, q.name) && JoinsVia(s.cfg, s.reg, q, mid, r, after)
    ensures r.Ok? && forall v6: bool :: s.cfg.members[q.name].Pref(v6).Some? ==>
              r.value.Ip(v6) == s.cfg.members[q.name].Pref(v6)
  {
    var m := s.cfg.members[q.name];
    FixedIsNotRefused(s, q.name, false);
    FixedIsNotRefused(s, q.name, true);
    assert Grants(s.cfg, s.reg, q.reclaim, q.name, m.pref4, m.pref6, mid, r.value);
    forall v6: bool | m.Pref(v6).Some?
      ensures r.value.Ip(v6) == m.Pref(v6)
    {
      var one :| && Chooses(s.cfg, s.reg, q.reclaim, q.name, false, m.pref4, one, r.value.ip4)
                 && Chooses(s.cfg, one, q.reclaim, q.name, true, m.pref6, mid, r.value.ip6);
    }
  }

  /** A member without a static address keeps the one it holds when it joins again. */
  lemma RejoinKeepsTheAddress(s: State, q: JoinRequest, mid: Registry, g: Granted, after: Registry, id: NodeId,
                              v6: bool)
    requires Inv(s.cfg, s.reg) && q.name in s.cfg.members && s.cfg.members[q.name].wantIp
    requires JoinsVia(s.cfg, s.reg, q, mid, Ok(g), after) && IsRecordOf(s.reg, q.name, id)
    requires s.cfg.members[q.name].Pref(v6).None? && s.reg.members[id].Ip(v6).Some?
    ensures g.Ip(v6) == s.reg.members[id].Ip(v6)
  {
    var m := s.cfg.members[q.name];
    var one :| && Chooses(s.cfg, s.reg, q.reclaim, q.name, false, m.pref4, one, g.ip4)
               && Chooses(s.cfg, one, q.reclaim, q.name, true, m.pref6, mid, g.ip6);
    var ip := s.reg.members[id].Ip(v6);
    assert s.cfg.Inside(v6, ip.value);
    OwnRecordStays(s.cfg, s.reg, q.reclaim, q.name, m.pref4, one, g.ip4, id);
    assert v6 ==> Keeps(s.cfg, one, q.name, true, ip) by { assert v6 ==> IsRecordOf(one, q.name, id); }
    assert !v6 ==> Keeps(s.cfg, s.reg, q.name, false, ip);
    ChoosesGood(s.cfg, s.reg, q.reclaim, q.name, false, m.pref4, one, g.ip4);
  }

  lemma OwnRecordStays(cfg: Config, reg: Registry, reclaim: Option<Liveness>, member: string,
                       want: Option<nat>, after: Registry, ip: Option<nat>, id: NodeId)
    requires Chooses(cfg, reg, reclaim, member, false, want, after, ip) && IsRecordOf(reg, member, id)
    ensures IsRecordOf(after, member, id) && after.members[id] == reg.members[id]
  {
  }

  /** Choosing for one member takes no static address from another. */
  lemma ChooseSpares(cfg: Config, reg: Registry, reclaim: Option<Liveness>, member: string, v6: bool,
                     want: Option<nat>, after: Registry, ip: Option<nat>, id: NodeId)
    requires Chooses(cfg, reg, reclaim, member, v6, want, after, ip) && id in reg.members
    requires reg.members[id].name in cfg.members
    ensures id in after.members && after.members[id].name == reg.members[id].name
    ensures HoldsStatics(cfg.members[reg.members[id].name], reg.members[id]) ==>
              HoldsStatics(cfg.members[reg.members[id].name], after.members[id])
  {
    var m := cfg.members[reg.members[id].name];
    if after.members != reg.members {
      var k :| IsVictim(cfg, reg, reclaim.value, member, v6, k) && after == Dispossessed(reg, k, v6);
      assert m.Pref(v6).Some? ==> m.Pref(v6).value in Hard(cfg, v6);
      forall x: bool | HoldsStatics(m, reg.members[id]) && m.Pref(x).Some?
        ensures after.members[id].Ip(x) == m.Pref(x) && !Unroutable(x, m.Pref(x).value)
      {
        assert reg.members[id].Ip(x) == m.Pref(x);
      }
    }
  }

  lemma AllocationSpares(cfg: Config, reg: Registry, q: JoinRequest, mid: Registry, r: Result<Granted, Error>,
                         id: NodeId)
    requires q.name in cfg.members && id in reg.members && reg.members[id].name in cfg.members
    requires var m := cfg.members[q.name]; Allocation(cfg, reg, q.reclaim, q.name, m.pref4, m.pref6, mid, r)
    ensures id in mid.members && mid.members[id].name == reg.members[id].name
    ensures HoldsStatics(cfg.members[reg.members[id].name], reg.members[id]) ==>
              HoldsStatics(cfg.members[reg.members[id].name], mid.members[id])
  {
    var m := cfg.members[q.name];
    if r.Ok? {
      var one :| && Chooses(cfg, reg, q.reclaim, q.name, false, m.pref4, one, r.value.ip4)
                 && Chooses(cfg, one, q.reclaim, q.name, true, m.pref6, mid, r.value.ip6);
      ChooseSpares(cfg, reg, q.reclaim, q.name, false, m.pref4, one, r.value.ip4, id);
      ChooseSpares(cfg, one, q.reclaim, q.name, true, m.pref6, mid, r.value.ip6, id);
    }
  }

  lemma JoinKeepsFixed(s: State, q: JoinRequest, t: State, name: string)
    requires Inv(s.cfg, s.reg) && Fixed(s, name) && Next(s, Join(q), t)
    ensures Fixed(t, name)
  {
    if t.reg != s.reg {
      var m := s.cfg.members[name];
      var id :| IsRecordOf(s.reg, name, id) && HoldsStatics(m, s.reg.members[id]);
      var mid, r: Result<Granted, Error> :| JoinsVia(s.cfg, s.reg, q, mid, r, t.reg);
      var k :| EnrolsAs(mid, q.name, k) &&
               t.reg == Enrolled(mid, k, q.name, s.cfg.members[q.name].client, r.value, q.now, q.replaced);
      if s.cfg.members[q.name].wantIp {
        AllocationSpares(s.cfg, s.reg, q, mid, r, id);
      }
      assert IsRecordOf(mid, name, id) && HoldsStatics(m, mid.members[id]);
      if q.name == name {
        FixedIsGranted(s, q, mid, r, t.reg);
        assert IsRecordOf(t.reg, name, k);
        EnrolledStatics(mid, k, q, m, r.value);
      } else {
        assert k != id;
        assert IsRecordOf(t.reg, name, id);
      }
    }
  }

  lemma EnrolledStatics(mid: Registry, k: NodeId, q: JoinRequest, m: MemberCfg, g: Granted)
    requires forall v6: bool :: m.Pref(v6).Some? ==> g.Ip(v6) == m.Pref(v6) && !Unroutable(v6, m.Pref(v6).value)
    ensures HoldsStatics(m, Enrolled(mid, k, q.name, m.client, g, q.now, q.replaced).members[k])
  {
  }

  lemma NextKeepsFixed(s: State, e: Event, t: State, name: string)
    requires Inv(s.cfg, s.reg) && Fixed(s, name) && Next(s, e, t)
    requires name in t.cfg.members && t.cfg.members[name] == s.cfg.members[name]
    ensures Fixed(t, name)
  {
    var id :| IsRecordOf(s.reg, name, id) && HoldsStatics(s.cfg.members[name], s.reg.members[id]);
    match e
    case Join(q) => JoinKeepsFixed(s, q, t, name);
    case Edit(_) =>
    case Delete(_) => assert IsRecordOf(t.reg, name, id);
    case Mark(i, disabled, loginGen) =>
      assert IsRecordOf(t.reg, name, id);
      forall v6: bool
        ensures t.reg.members[id].Ip(v6) == s.reg.members[id].Ip(v6)
      {
      }
  }

  lemma {:induction false} FixedStays(run: seq<State>, a: nat, b: nat, name: string)
    requires IsRun(run) && a <= b < |run| && Fixed(run[a], name)
    requires forall k :: a <= k <= b ==>
             name in run[k].cfg.members && run[k].cfg.members[name] == run[a].cfg.members[name]
    ensures Fixed(run[b], name)
    decreases b
  {
    if a < b {
      FixedStays(run, a, b - 1, name);
      AddressesNeverCollide(run, b - 1);
      assert StepAt(run, b);
      var e: Event :| Next(run[b - 1], e, run[b]);
      NextKeepsFixed(run[b - 1], e, run[b], name);
    }
  }

  /**
   In every run: a member whose record holds its static addresses holds them for as long as they stay
   configured, whoever joins, and is granted exactly them again by every later join of its own.
   */
  lemma StaticIsGrantedAgain(run: seq<State>, a: nat, b: nat, q: JoinRequest, mid: Registry,
                             r: Result<Granted, Error>, after: Registry)
    requires IsRun(run) && a <= b < |run| && Fixed(run[a], q.name)
    requires forall k :: a <= k <= b ==>
               q.name in run[k].cfg.members && run[k].cfg.members[q.name] == run[a].cfg.members[q.name]
    ensures Fixed(run[b], q.name)
    ensures JoinsVia(run[b].cfg, run[b].reg, q, mid, r, after) ==>
              && r.Ok?
              && forall v6: bool :: run[a].cfg.members[q.name].Pref(v6).Some? ==>
                   r.value.Ip(v6) == run[a].cfg.members[q.name].Pref(v6)
  {
    FixedStays(run, a, b, q.name);
    AddressesNeverCollide(run, b);
    if JoinsVia(run[b].cfg, run[b].reg, q, mid, r, after) {
      FixedIsGranted(run[b], q, mid, r, after);
    }
  }

  // ---------- fairness over whole runs ----------

  /** The step from `s` to `t` granted `member` the address at `g.index`, found by scanning past `g.taken`. */
  ghost predicate GrantsByScan(s: State, t: State, v6: bool, g: Grant, member: string) {
    && t.cfg == s.cfg && g.taken == TakenBy(s.cfg, s.reg, member, v6)
    && ScanFor(s.cfg, s.reg, member, v6) == Some(g.index)
    && t.reg.Cursor(v6) == NextCursor(g.index, SpanOf(s.cfg, v6).0)
    && exists id :: IsRecordOf(t.reg, member, id) && t.reg.members[id].Ip(v6) == Some(SpanOf(s.cfg, v6).1 + g.index)
  }

  ghost predicate ScanGrants(s: State, t: State, v6: bool, g: Grant) {
    exists member :: GrantsByScan(s, t, v6, g, member)
  }

  /** Choosing an address moves a family's cursor only by a scan of it. */
  lemma ChooseCursor(cfg: Config, reg: Registry, reclaim: Option<Liveness>, member: string, v6: bool,
                     want: Option<nat>, after: Registry, ip: Option<nat>)
    requires Chooses(cfg, reg, reclaim, member, v6, want, after, ip)
    ensures after.Cursor(!v6) == reg.Cursor(!v6)
    ensures after.Cursor(v6) == reg.Cursor(v6) || (ip.Some? && Scanned(cfg, reg, member, v6, after, ip.value))
  {
  }

  /** The allocation granted the first free address of the family from the cursor on, and moved the cursor past it. */
  ghost predicate FromCursor(cfg: Config, reg: Registry, member: string, v6: bool, after: Registry, ip: Option<nat>) {
    && ScanFor(cfg, reg, member, v6).Some?
    && ip == Some(SpanOf(cfg, v6).1 + ScanFor(cfg, reg, member, v6).value)
    && after.Cursor(v6) == NextCursor(ScanFor(cfg, reg, member, v6).value, SpanOf(cfg, v6).0)
  }

  lemma ScannedIsFromCursor(cfg: Config, reg: Registry, member: string, v6: bool, after: Registry, ip: nat)
    requires Scanned(cfg, reg, member, v6, after, ip)
    ensures FromCursor(cfg, reg, member, v6, after, Some(ip))
  {
  }

  lemma GrantsCursor(cfg: Config, reg: Registry, reclaim: Option<Liveness>, member: string,
                     want4: Option<nat>, want6: Option<nat>, mid: Registry, g: Granted, v6: bool)
    requires Inv(cfg, reg) && Refusal(cfg, reg, member, false, want4).None?
    requires Grants(cfg, reg, reclaim, member, want4, want6, mid, g)
    ensures mid.Cursor(v6) == reg.Cursor(v6) || FromCursor(cfg, reg, member, v6, mid, g.Ip(v6))
  {
    var one :| && Chooses(cfg, reg, reclaim, member, false, want4, one, g.ip4)
               && Chooses(cfg, one, reclaim, member, true, want6, mid, g.ip6);
    ChooseCursor(cfg, reg, reclaim, member, false, want4, one, g.ip4);
    ChooseCursor(cfg, one, reclaim, member, true, want6, mid, g.ip6);
    ChoosesGood(cfg, reg, reclaim, member, false, want4, one, g.ip4);
    SameTaken(cfg, reg, one, member, false);
    if mid.Cursor(v6) != reg.Cursor(v6) {
      if v6 {
        ScannedIsFromCursor(cfg, one, member, true, mid, g.ip6.value);
      } else {
        ScannedIsFromCursor(cfg, reg, member, false, one, g.ip4.value);
      }
    }
  }

  /** A join that moved a cursor was saved, and allocated addresses. */
  lemma JoinParts(cfg: Config, reg: Registry, q: JoinRequest, after: Registry, v6: bool)
    returns (mid: Registry, g: Granted, id: NodeId)
    requires Joins(cfg, reg, q, after) && after.Cursor(v6) != reg.Cursor(v6)
    ensures q.name in cfg.members &&
            after == Enrolled(mid, id, q.name, cfg.members[q.name].client, g, q.now, q.replaced)
    ensures var m := cfg.members[q.name];
            Refusal(cfg, reg, q.name, false, m.pref4).None? &&
              Grants(cfg, reg, q.reclaim, q.name, m.pref4, m.pref6, mid, g)
  {
    var r: Result<Granted, Error>;
    mid, r :| JoinsVia(cfg, reg, q, mid, r, after);
    g := r.value;
    id :| EnrolsAs(mid, q.name, id) &&
      after == Enrolled(mid, id, q.name, cfg.members[q.name].client, g, q.now, q.replaced);
  }

  lemma EnrolledByScan(s: State, t: State, q: JoinRequest, client: bool, mid: Registry, g: Granted, id: NodeId,
                       v6: bool)
    requires FromCursor(s.cfg, s.reg, q.name, v6, mid, g.Ip(v6))
    requires t == State(s.cfg, Enrolled(mid, id, q.name, client, g, q.now, q.replaced))
    ensures var i := ScanFor(s.cfg, s.reg, q.name, v6).value;
            GrantsByScan(s, t, v6, Grant(TakenBy(s.cfg, s.reg, q.name, v6), i), q.name)
  {
    assert IsRecordOf(t.reg, q.name, id) && t.reg.members[id].Ip(v6) == g.Ip(v6);
  }

  /** A join that moved a cursor granted by a scan of that family. */
  lemma JoinCursor(s: State, q: JoinRequest, t: State, v6: bool) returns (g: Grant)
    requires Inv(s.cfg, s.reg) && t.cfg == s.cfg && Joins(s.cfg, s.reg, q, t.reg) &&
             t.reg.Cursor(v6) != s.reg.Cursor(v6)
    ensures GrantsByScan(s, t, v6, g, q.name)
  {
    var mid, r, id := JoinParts(s.cfg, s.reg, q, t.reg, v6);
    var m := s.cfg.members[q.name];
    GrantsCursor(s.cfg, s.reg, q.reclaim, q.name, m.pref4, m.pref6, mid, r, v6);
    g := Grant(TakenBy(s.cfg, s.reg, q.name, v6), ScanFor(s.cfg, s.reg, q.name, v6).value);
    EnrolledByScan(s, t, q, m.client, mid, r, id, v6);
  }

  /** Whatever a step does, be it a reclaim, a refusal or a rolled-back save, it moves a cursor only by a scan grant. */
  lemma StepCursor(s: State, t: State, v6: bool)
    requires Inv(s.cfg, s.reg) && Follows(s, t)
    ensures t.reg.Cursor(v6) == s.reg.Cursor(v6) || exists g :: ScanGrants(s, t, v6, g)
  {
    var e: Event :| Next(s, e, t);
    if e.Join? && t.reg.Cursor(v6) != s.reg.Cursor(v6) {
      var g := JoinCursor(s, e.q, t, v6);
      assert ScanGrants(s, t, v6, g);
    }
  }

  lemma GrantMoves(s: State, t: State, v6: bool, g: Grant)
    requires ScanGrants(s, t, v6, g)
    ensures g.index < SpanOf(s.cfg, v6).0 && t.reg.Cursor(v6) == NextCursor(g.index, SpanOf(s.cfg, v6).0)
    ensures Scan(SpanOf(s.cfg, v6).0, SpanOf(s.cfg, v6).1, g.taken, s.reg.Cursor(v6)) == Some(g.index)
  {
  }

  /** One of the steps after `a`, up to `b`, granted `g` by scanning. */
  ghost predicate Within(run: seq<State>, a: nat, b: nat, v6: bool, g: Grant) {
    exists k :: a < k <= b < |run| && GrantsAt(run, k, v6, g)
  }

  /** The `k`-th step granted `g` by scanning. */
  ghost predicate GrantsAt(run: seq<State>, k: nat, v6: bool, g: Grant)
    requires 0 < k < |run|
  {
    ScanGrants(run[k - 1], run[k], v6, g)
  }

  ghost predicate SameRange(run: seq<State>, a: nat, b: nat, v6: bool, n: nat, first: nat) {
    forall k :: a <= k <= b < |run| ==> SpanOf(run[k].cfg, v6) == (n, first)
  }

  /** The scan grants of a stretch of a run, in order, are a chain of scans. */
  lemma {:induction false} RunScans(run: seq<State>, a: nat, b: nat, v6: bool, n: nat, first: nat)
    returns (gs: seq<Grant>)
    requires IsRun(run) && a <= b < |run| && SameRange(run, a, b, v6, n, first) && run[a].reg.Cursor(v6) < n
    ensures Scans(n, first, run[a].reg.Cursor(v6), gs) &&
            run[b].reg.Cursor(v6) == CursorAt(n, run[a].reg.Cursor(v6), gs, |gs|)
    ensures forall g <- gs :: Within(run, a, b, v6, g)
    decreases b
  {
    gs := [];
    if a < b {
      gs := RunScans(run, a, b - 1, v6, n, first);
      AddressesNeverCollide(run, b - 1);
      assert StepAt(run, b);
      StepCursor(run[b - 1], run[b], v6);
      if run[b].reg.Cursor(v6) != run[b - 1].reg.Cursor(v6) {
        var g :| ScanGrants(run[b - 1], run[b], v6, g);
        gs := ChainGrows(run, a, b, v6, n, first, gs, g);
      }
    }
  }

  lemma ChainGrows(run: seq<State>, a: nat, b: nat, v6: bool, n: nat, first: nat, gs: seq<Grant>, g: Grant)
    returns (more: seq<Grant>)
    requires a < b < |run| && SpanOf(run[b - 1].cfg, v6) == (n, first)
    requires run[a].reg.Cursor(v6) < n && ScanGrants(run[b - 1], run[b], v6, g)
    requires Scans(n, first, run[a].reg.Cursor(v6), gs) &&
             run[b - 1].reg.Cursor(v6) == CursorAt(n, run[a].reg.Cursor(v6), gs, |gs|)
    requires forall h <- gs :: Within(run, a, b - 1, v6, h)
    ensures more == gs + [g] && Scans(n, first, run[a].reg.Cursor(v6), more)
    ensures run[b].reg.Cursor(v6) == CursorAt(n, run[a].reg.Cursor(v6), more, |more|) &&
            forall h <- more :: Within(run, a, b, v6, h)
  {
    more := gs + [g];
    GrantMoves(run[b - 1], run[b], v6, g);
    ScanPicks(n, first, g.taken, run[b - 1].reg.Cursor(v6));
    ScansExtend(n, first, run[a].reg.Cursor(v6), gs, g);
    forall h | h in more
      ensures Within(run, a, b, v6, h)
    {
      if h in gs {
        var k :| a < k <= b - 1 && GrantsAt(run, k, v6, h);
        assert a < k <= b && GrantsAt(run, k, v6, h);
      } else {
        assert GrantsAt(run, b, v6, h);
      }
    }
  }

  /**
   In every run, whatever is reclaimed, refused, rolled back, edited or deleted in between: if one
   address is granted by a scan at step `a` and again at step `b`, with the range unchanged, every
   other address of the span was granted by a scan or found taken by one in between.
   */
  lemma CursorIsFairInRuns(run: seq<State>, a: nat, b: nat, v6: bool, n: nat, first: nat, was: Grant, now: Grant,
                           j: nat)
    requires IsRun(run) && 0 < a < b < |run| && SameRange(run, a - 1, b, v6, n, first)
    requires GrantsAt(run, a, v6, was) && GrantsAt(run, b, v6, now) && was.index == now.index
    requires j < n && j != was.index
    ensures exists g :: Within(run, a, b, v6, g) && Passes(first, g, j)
  {
    var i := was.index;
    assert SpanOf(run[a - 1].cfg, v6) == (n, first) && SpanOf(run[b - 1].cfg, v6) == (n, first);
    GrantMoves(run[a - 1], run[a], v6, was);
    var gs := RunScans(run, a, b - 1, v6, n, first);
    gs := ChainGrows(run, a, b, v6, n, first, gs, now);
    CursorIsFair(n, first, i, gs, j);
    var g :| g in gs && Passes(first, g, j);
  }

  // ---------- the coordinator's side, in place ----------

  class Network {
    var cfg: Config
    var reg: Registry

    constructor (c: Config)
      requires c.Valid()
      ensures cfg == c && reg == Registry(map[], 0, 0, 1) && Inv(cfg, reg)
    {
      cfg, reg := c, Registry(map[], 0, 0, 1);
    }

    /** A new address of one family for `member`; the registry changes only if there is one. */
    method Alloc(member: string, v6: bool, reclaim: Option<Liveness>) returns (ip: Option<nat>)
      modifies `reg
      ensures Allocates(cfg, old(reg), reclaim, member, v6, reg, ip)
    {
      var (n, first) := SpanOf(cfg, v6);
      var found := ScanFromCursor(n, first, TakenBy(cfg, reg, member, v6), reg.Cursor(v6));
      if found.Some? {
        reg := reg.WithCursor(v6, found.value.1);
        return Some(found.value.0);
      }
      if reclaim.None? {
        return None;
      }
      var victim := FindVictim(cfg, reg, reclaim.value, member, v6);
      if victim.None? {
        return None;
      }
      ip := reg.members[victim.value].Ip(v6);
      reg := Dispossessed(reg, victim.value, v6);
    }

    method RecordOf(name: string) returns (r: Option<NodeId>)
      ensures r.Some? ==> IsRecordOf(reg, name, r.value)
      ensures r.None? ==> forall k :: !IsRecordOf(reg, name, k)
    {
      r := None;
      var todo := reg.members.Keys;
      while todo != {}
        invariant todo <= reg.members.Keys
        invariant r.Some? ==> IsRecordOf(reg, name, r.value)
        invariant r.None? ==> forall k <- reg.members.Keys - todo :: reg.members[k].name != name
        decreases |todo|
      {
        var k := Pick(todo);
        if reg.members[k].name == name {
          r := Some(k);
        }
        todo := todo - {k};
      }
      assert r.None? ==> forall k <- reg.members :: reg.members[k].name != name;
    }

    /** One family: the wanted address, else the one held, else a new one. */
    method Choose(member: string, v6: bool, want: Option<nat>, reclaim: Option<Liveness>) returns (ip: Option<nat>)
      requires Distinct(reg)
      modifies `reg
      ensures Chooses(cfg, old(reg), reclaim, member, v6, want, reg, ip)
    {
      if want.Some? {
        return want;
      }
      var id := RecordOf(member);
      if id.Some? && reg.members[id.value].Ip(v6).Some? && cfg.Inside(v6, reg.members[id.value].Ip(v6).value) {
        ip := reg.members[id.value].Ip(v6);
        assert Keeps(cfg, reg, member, v6, ip);
        return;
      }
      assert forall a :: !Keeps(cfg, reg, member, v6, a) by {
        forall a, k | IsRecordOf(reg, member, k) && reg.members[k].Ip(v6) == a && a.Some?
          ensures !cfg.Inside(v6, a.value)
        {
          assert id == Some(k);
        }
      }
      ip := Alloc(member, v6, reclaim);
    }

    /** Both addresses for a member; on an error nothing changed. */
    method Allocate(member: string, preferred4: Option<nat>, preferred6: Option<nat>, reclaim: Option<Liveness>)
      returns (r: Result<Granted, Error>)
      requires Inv(cfg, reg)
      modifies `reg
      ensures Allocation(cfg, old(reg), reclaim, member,
                         Want(cfg, member, preferred4, false), Want(cfg, member, preferred6, true), reg, r)
      ensures Inv(cfg, reg)
    {
      if member !in cfg.members {
        return Err(NotConfigured);
      }
      var want4, want6 := Want(cfg, member, preferred4, false), Want(cfg, member, preferred6, true);
      var refused := Refusal(cfg, reg, member, false, want4);
      if refused.Some? {
        return Err(refused.value);
      }
      refused := Refusal(cfg, reg, member, true, want6);
      if refused.Some? {
        return Err(refused.value);
      }
      ghost var start := reg;
      var ip4 := Choose(member, false, want4, reclaim);
      ghost var mid := reg;
      ChoosesGood(cfg, start, reclaim, member, false, want4, mid, ip4);
      if ip4.None? {
        return Err(Exhausted);
      }
      SameTaken(cfg, start, mid, member, false);
      var ip6 := Choose(member, true, want6, reclaim);
      ChoosesGood(cfg, mid, reclaim, member, true, want6, reg, ip6);
      assert Grants(cfg, start, reclaim, member, want4, want6, reg, Granted(ip4, ip6));
      NotOut(cfg, start, reclaim, member, want4, mid, ip4);
      r := Ok(Granted(ip4, ip6));
    }

    /** The address and registry part of a join; a failed save puts the durable registry back. */
    method Join(q: JoinRequest) returns (r: Result<NodeId, Error>)
      requires Inv(cfg, reg)
      modifies `reg
      ensures Joins(cfg, old(reg), q, reg) && Inv(cfg, reg)
      ensures r.Err? ==> reg == old(reg)
    {
      ghost var start := reg;
      if q.name !in cfg.members {
        return Err(NotConfigured);
      }
      var m := cfg.members[q.name];
      var known := RecordOf(q.name);
      if known.Some? && reg.members[known.value].disabled {
        assert IsDisabled(reg, q.name);
        return Err(Disabled);
      }
      assert !IsDisabled(reg, q.name) by {
        forall k: NodeId | IsRecordOf(reg, q.name, k)
          ensures known == Some(k)
        {
        }
      }
      var durable := reg;
      var granted := Granted(None, None);
      if m.wantIp {
        var g := Allocate(q.name, m.pref4, m.pref6, q.reclaim);
        if g.Err? {
          assert JoinsVia(cfg, start, q, reg, g, start);
          return Err(g.error);
        }
        granted := g.value;
      }
      ghost var mid := reg;
      if !q.saved {
        reg := durable;
        assert JoinsVia(cfg, start, q, mid, Ok(granted), reg);
        return Err(Uncommitted);
      }
      var id := RecordOf(q.name);
      if id.None? {
        id := Some(FirstUnused(reg.members.Keys, Max(reg.nextId, 1)));
      }
      reg := Enrolled(reg, id.value, q.name, m.client, granted, q.now, q.replaced);
      assert EnrolsAs(mid, q.name, id.value);
      assert JoinsVia(cfg, start, q, mid, Ok(granted), reg);
      JoinKeeps(cfg, start, q, reg);
      r := Ok(id.value);
    }

    /** A proposed configuration is taken over only if what is held fits it. */
    method EditConfig(proposed: Config) returns (ok: bool)
      requires Inv(cfg, reg) && proposed.Valid()
      modifies `cfg
      ensures Inv(cfg, reg) && (ok <==> Assignable(proposed, reg)) && cfg == if ok then proposed else old(cfg)
    {
      ok := ValidateAssignments(proposed, reg);
      if ok {
        cfg := proposed;
      }
    }
  }

  /** An allocation that found an IPv4 address was not out of them. */
  lemma NotOut(cfg: Config, reg: Registry, reclaim: Option<Liveness>, member: string, want4: Option<nat>,
               mid: Registry, ip4: Option<nat>)
    requires Chooses(cfg, reg, reclaim, member, false, want4, mid, ip4) && ip4.Some?
    ensures !OutOfAddresses(cfg, reg, reclaim, member, want4)
  {
  }
}

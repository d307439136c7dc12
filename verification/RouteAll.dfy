/**
 Route-all: which exit carries each family's otherwise unrouted traffic, and when the catch-all
 may go up without cutting the tunnel's own transport.
 */
module RouteAll {
  import opened Base
  import opened Cidrs
  import opened Snapshots

  // ---------- the exit ----------

  predicate OwnsDefault(m: Member, v6: bool) {
    m.online && exists p <- m.prefixes :: p.Trunc() == Net(v6, 0, 0)
  }

  function ByName(ms: seq<Member>, name: string, v6: bool): (r: Option<NodeId>)
    ensures r.Some? ==> exists m <- ms :: m.id == r.value && m.name == name && OwnsDefault(m, v6)
    ensures r.None? ==> forall m <- ms :: m.name == name ==> !OwnsDefault(m, v6)
  {
    if ms == [] then None
    else if ms[0].name == name && OwnsDefault(ms[0], v6) then Some(ms[0].id)
    else ByName(ms[1..], name, v6)
  }

  function LowestId(ms: seq<Member>, v6: bool): (r: Option<NodeId>)
    ensures r.Some? ==> exists m <- ms :: m.id == r.value && OwnsDefault(m, v6)
    ensures r.Some? ==> forall m <- ms :: OwnsDefault(m, v6) ==> r.value <= m.id
    ensures r.None? ==> forall m <- ms :: !OwnsDefault(m, v6)
  {
    if ms == [] then None else
    var rest := LowestId(ms[1..], v6);
    if !OwnsDefault(ms[0], v6) then rest
    else if rest.Some? && rest.value < ms[0].id then rest
    else Some(ms[0].id)
  }

  predicate Usable(ms: seq<Member>, id: NodeId, v6: bool) {
    exists m <- ms :: m.id == id && OwnsDefault(m, v6)
  }

  function Or<T>(a: Option<T>, b: Option<T>): Option<T> {
    if a.Some? then a else b
  }

  /** The preferred node if it qualifies, else the one attached to, else the lowest id. */
  function ExitGateway(view: Snapshot, via: Option<string>, attached: Option<NodeId>, v6: bool): Option<NodeId> {
    var preferred := if via.Some? then ByName(view.members, via.value, v6) else None;
    var here := if attached.Some? && Usable(view.members, attached.value, v6) then attached else None;
    Or(preferred, Or(here, LowestId(view.members, v6)))
  }

  /** Nobody of the preferred name qualifies. */
  predicate NoPreference(view: Snapshot, via: Option<string>, v6: bool) {
    forall m <- view.members :: via == Some(m.name) ==> !OwnsDefault(m, v6)
  }

  /** Whoever is chosen owns the default and is online; nobody is chosen only if nobody qualifies. */
  lemma ExitIsUsable(view: Snapshot, via: Option<string>, attached: Option<NodeId>, v6: bool)
    ensures var e := ExitGateway(view, via, attached, v6);
            && (e.None? <==> forall m <- view.members :: !OwnsDefault(m, v6))
            && (e.Some? ==> Usable(view.members, e.value, v6))
            && (forall m <- view.members :: via == Some(m.name) && OwnsDefault(m, v6) ==>
                  exists n <- view.members :: e == Some(n.id) && n.name == m.name && OwnsDefault(n, v6))
            && (NoPreference(view, via, v6) && attached.Some? && Usable(view.members, attached.value, v6) ==>
               e == attached)
  {
    var e := ExitGateway(view, via, attached, v6);
    if m :| m in view.members && via == Some(m.name) && OwnsDefault(m, v6) {
      assert ByName(view.members, via.value, v6).Some?;
    }
  }

  /** With neither preference nor attachment to go by, it is the lowest id of those that qualify. */
  lemma LowestExit(view: Snapshot, via: Option<string>, attached: Option<NodeId>, v6: bool)
    requires NoPreference(view, via, v6) && !(attached.Some? && Usable(view.members, attached.value, v6))
    ensures forall m <- view.members :: OwnsDefault(m, v6) ==>
              ExitGateway(view, via, attached, v6).Some? && ExitGateway(view, via, attached, v6).value <= m.id
  {
  }

  /** An online member that claims the whole family. */
  ghost predicate HasExit(view: Snapshot, v6: bool) {
    exists m <- view.members :: m.online && exists p <- m.prefixes :: p.v6 == v6 && p.len == 0
  }

  lemma SmallDiv(a: nat, s: nat)
    requires a < s
    ensures a / s == 0
  {
  }

  lemma DefaultIs(p: Prefix, v6: bool)
    ensures p.Trunc() == Net(v6, 0, 0) <==> p.v6 == v6 && p.len == 0
  {
    if p.len == 0 {
      SmallDiv(p.addr, p.Size());
    }
  }

  /** There is an exit exactly if somebody online claims the whole family. */
  lemma ExitIffClaimed(view: Snapshot, via: Option<string>, attached: Option<NodeId>, v6: bool)
    ensures ExitGateway(view, via, attached, v6).Some? <==> HasExit(view, v6)
  {
    ExitIsUsable(view, via, attached, v6);
    forall m | m in view.members
      ensures OwnsDefault(m, v6) <==> m.online && exists p <- m.prefixes :: p.v6 == v6 && p.len == 0
    {
      forall p | p in m.prefixes
        ensures p.Trunc() == Net(v6, 0, 0) <==> p.v6 == v6 && p.len == 0
      {
        DefaultIs(p, v6);
      }
    }
  }

  // ---------- what needs a pin ----------

  predicate OnLocal(ip: Address, local: seq<Prefix>) {
    exists l <- local :: l.Has(ip)
  }

  function UnderlayToPin(underlay: seq<Address>, local: seq<Prefix>): set<Address> {
    set ip | ip in underlay && !OnLocal(ip, local)
  }

  // ---------- the plan ----------

  /** The two halves of a family, each one bit longer than its default. */
  function CatchAllHalves(v6: bool): seq<Prefix> {
    HalfIsValid(v6);
    [Net(v6, 0, 1), Net(v6, Pow2(Width(v6) - 1), 1)]
  }

  lemma HalfIsValid(v6: bool)
    ensures Net(v6, 0, 1).Valid() && Net(v6, Pow2(Width(v6) - 1), 1).Valid()
  {
    assert Pow2(Width(v6)) == 2 * Pow2(Width(v6) - 1);
  }

  /** The halves cover every address of their family exactly once, and beat the default route. */
  lemma HalvesCover(v6: bool, ip: Address)
    requires ip.v6 == v6
    ensures CatchAllHalves(v6)[0].Has(ip) <==> !CatchAllHalves(v6)[1].Has(ip)
    ensures forall h <- CatchAllHalves(v6) :: h.len > Net(v6, 0, 0).len
  {
    var half := Pow2(Width(v6) - 1);
    assert Pow2(Width(v6)) == 2 * half;
    var hs := CatchAllHalves(v6);
    FactorOnce(1, half);
    assert hs[0].First() == 0 && hs[1].First() == half by {
      assert 0 / half == 0;
      assert half / half == 1;
    }
  }

  // What a reconcile decides: catch-alls for the device, exits for the in-tunnel table, and the
  // families armed although some host could not be pinned.
  datatype Plan = Plan(nets: seq<Prefix>, exits: seq<(bool, NodeId)>, failedClosed: seq<bool>)

  // The inputs to a plan apart from the view.
  datatype Pinning = Pinning(transport: seq<Address>, toPin: set<Address>, pinned: set<Address>) {
    predicate TransportLost(v6: bool) {
      exists ip <- toPin :: ip.v6 == v6 && ip !in pinned && ip in transport
    }

    predicate AnyUnpinned(v6: bool) {
      exists ip <- toPin :: ip.v6 == v6 && ip !in pinned
    }

    /** The family has transport, and each address of it is pinned or on a connected network. */
    predicate TransportWhole(v6: bool) {
      && (exists ip <- transport :: ip.v6 == v6)
      && forall ip <- transport :: ip.v6 == v6 ==> ip !in toPin || ip in pinned
    }

    predicate MayArm(v6: bool) {
      !TransportLost(v6) || TransportWhole(!v6)
    }
  }

  /** One family's turn. */
  function Armed(plan: Plan, v6: bool, exit: Option<NodeId>, p: Pinning): Plan {
    if exit.None? || !p.MayArm(v6) then plan else
    Plan(plan.nets + CatchAllHalves(v6),
         plan.exits + [(v6, exit.value)],
         if p.AnyUnpinned(v6) then plan.failedClosed + [v6] else plan.failedClosed)
  }

  /** The method's loop over the two families. */
  method RouteAllPlan(view: Snapshot, via: Option<string>, attached: Option<NodeId>, p: Pinning) returns (plan: Plan)
    ensures plan == PlanFor(view, via, attached, p)
  {
    plan := Plan([], [], []);
    var families := [false, true];
    var i := 0;
    while i < 2
      invariant 0 <= i <= 2
      invariant plan == (if i == 0 then Plan([], [], [])
                         else if i == 1 then Armed(Plan([], [], []), false, ExitGateway(view, via, attached, false), p)
                         else PlanFor(view, via, attached, p))
    {
      var v6 := families[i];
      var exit := ExitGateway(view, via, attached, v6);
      if exit.Some? && (!p.TransportLost(v6) || p.TransportWhole(!v6)) {
        plan := plan.(nets := plan.nets + CatchAllHalves(v6), exits := plan.exits + [(v6, exit.value)]);
        if p.AnyUnpinned(v6) {
          plan := plan.(failedClosed := plan.failedClosed + [v6]);
        }
      }
      i := i + 1;
    }
  }

  function PlanFor(view: Snapshot, via: Option<string>, attached: Option<NodeId>, p: Pinning): Plan {
    Armed(Armed(Plan([], [], []), false, ExitGateway(view, via, attached, false), p), true,
      ExitGateway(view, via, attached, true), p)
  }

  predicate Arms(plan: Plan, v6: bool) {
    exists e <- plan.exits :: e.0 == v6
  }

  /** A family is armed exactly when it has an exit and arming it is safe; its routes say the same. */
  lemma ArmedExactly(view: Snapshot, via: Option<string>, attached: Option<NodeId>, p: Pinning, v6: bool)
    ensures var plan := PlanFor(view, via, attached, p);
            && (Arms(plan, v6) <==> ExitGateway(view, via, attached, v6).Some? && p.MayArm(v6))
            && (forall h <- CatchAllHalves(v6) :: Arms(plan, v6) <==> h in plan.nets)
            && (v6 in plan.failedClosed <==> Arms(plan, v6) && p.AnyUnpinned(v6))
            && (forall e <- plan.exits :: Usable(view.members, e.1, e.0))
  {
    var first, second := false, true;
    ExitIsUsable(view, via, attached, first);
    ExitIsUsable(view, via, attached, second);
    var one := Armed(Plan([], [], []), first, ExitGateway(view, via, attached, first), p);
    ArmedAdds(Plan([], [], []), first, ExitGateway(view, via, attached, first), p, v6);
    ArmedAdds(one, second, ExitGateway(view, via, attached, second), p, v6);
    NetsFollow(view, via, attached, p, v6);
  }

  lemma ArmedAdds(plan: Plan, v6: bool, exit: Option<NodeId>, p: Pinning, x: bool)
    ensures var after := Armed(plan, v6, exit, p);
            && (Arms(after, x) <==> Arms(plan, x) || (x == v6 && exit.Some? && p.MayArm(v6)))
            && (x in after.failedClosed <==>
               x in plan.failedClosed || (x == v6 && exit.Some? && p.MayArm(v6) && p.AnyUnpinned(v6)))
            && (forall e <- after.exits :: e in plan.exits || (exit.Some? && e == (v6, exit.value)))
  {
    var after := Armed(plan, v6, exit, p);
    if exit.Some? && p.MayArm(v6) {
      assert (v6, exit.value) in after.exits;
    }
  }

  lemma ArmedNets(plan: Plan, v6: bool, exit: Option<NodeId>, p: Pinning, h: Prefix)
    ensures h in Armed(plan, v6, exit, p).nets <==>
            h in plan.nets || (exit.Some? && p.MayArm(v6) && h in CatchAllHalves(v6))
  {
  }

  lemma NetsFollow(view: Snapshot, via: Option<string>, attached: Option<NodeId>, p: Pinning, v6: bool)
    ensures var plan := PlanFor(view, via, attached, p);
            forall h <- CatchAllHalves(v6) :: h in plan.nets <==>
              ExitGateway(view, via, attached, v6).Some? && p.MayArm(v6)
  {
    var first, second := false, true;
    var plan := PlanFor(view, via, attached, p);
    var one := Armed(Plan([], [], []), first, ExitGateway(view, via, attached, first), p);
    forall h | h in CatchAllHalves(v6)
      ensures h in plan.nets <==> ExitGateway(view, via, attached, v6).Some? && p.MayArm(v6)
    {
      ArmedNets(Plan([], [], []), first, ExitGateway(view, via, attached, first), p, h);
      ArmedNets(one, second, ExitGateway(view, via, attached, second), p, h);
      assert h.v6 == v6;
    }
  }

  /** A host of the family the tunnel would swallow: neither pinned nor on a connected network. */
  predicate Exposed(ip: Address, v6: bool, local: seq<Prefix>, pinned: set<Address>) {
    ip.v6 == v6 && ip !in pinned && forall l <- local :: !l.Has(ip)
  }

  predicate AnyExposed(hosts: seq<Address>, v6: bool, local: seq<Prefix>, pinned: set<Address>) {
    exists ip <- hosts :: Exposed(ip, v6, local, pinned)
  }

  /**
   Exactly when a family stays on the real default route: nobody online offers an exit, or one of its
   transport addresses is exposed and the other family has no transport or an exposed one too. An
   exposed resolver alone never keeps a family off; it marks it failed closed.
   */
  lemma LeftOffIff(view: Snapshot, via: Option<string>, attached: Option<NodeId>, transport: seq<Address>,
                   resolvers: seq<Address>, local: seq<Prefix>, pinned: set<Address>, v6: bool)
    ensures var plan := PlanFor(view, via, attached,
                                Pinning(transport, UnderlayToPin(transport + resolvers, local), pinned));
            && (!Arms(plan, v6) <==>
                  || !HasExit(view, v6)
                  || (AnyExposed(transport, v6, local, pinned) &&
                      ((forall ip <- transport :: ip.v6 == v6) || AnyExposed(transport, !v6, local, pinned))))
            && (v6 in plan.failedClosed <==> Arms(plan, v6) && AnyExposed(transport + resolvers, v6, local, pinned))
  {
    var p := Pinning(transport, UnderlayToPin(transport + resolvers, local), pinned);
    ArmedExactly(view, via, attached, p, v6);
    ExitIffClaimed(view, via, attached, v6);
    PinningIs(transport, resolvers, local, pinned, v6);
    PinningIs(transport, resolvers, local, pinned, !v6);
  }

  lemma PinningIs(transport: seq<Address>, resolvers: seq<Address>, local: seq<Prefix>, pinned: set<Address>, v6: bool)
    ensures var p := Pinning(transport, UnderlayToPin(transport + resolvers, local), pinned);
            && (p.TransportLost(v6) <==> AnyExposed(transport, v6, local, pinned))
            && (p.AnyUnpinned(v6) <==> AnyExposed(transport + resolvers, v6, local, pinned))
            && (p.TransportWhole(v6) <==>
                  (exists ip <- transport :: ip.v6 == v6) && !AnyExposed(transport, v6, local, pinned))
  {
    var p := Pinning(transport, UnderlayToPin(transport + resolvers, local), pinned);
    forall ip | ip in transport + resolvers
      ensures Exposed(ip, v6, local, pinned) <==> ip in p.toPin && ip.v6 == v6 && ip !in pinned
    {
    }
    if p.AnyUnpinned(v6) {
      var ip :| ip in p.toPin && ip.v6 == v6 && ip !in pinned;
      assert ip in transport + resolvers;
    }
    if AnyExposed(transport, v6, local, pinned) {
      var ip :| ip in transport && Exposed(ip, v6, local, pinned);
      assert ip in transport + resolvers && ip in p.toPin;
    }
  }

  /** The exit of an armed family is the one chosen for it, and no other stands beside it. */
  lemma ExitsAreChosen(view: Snapshot, via: Option<string>, attached: Option<NodeId>, p: Pinning, v6: bool)
    ensures var plan := PlanFor(view, via, attached, p);
            forall e <- plan.exits :: e.0 == v6 ==> ExitGateway(view, via, attached, v6) == Some(e.1)
  {
    var first, second := false, true;
    var one := Armed(Plan([], [], []), first, ExitGateway(view, via, attached, first), p);
    ArmedAdds(Plan([], [], []), first, ExitGateway(view, via, attached, first), p, v6);
    ArmedAdds(one, second, ExitGateway(view, via, attached, second), p, v6);
  }

  /**
   Route-all never cuts its own transport: whatever the view, the connected networks and the
   outcome of pinning, some transport address is pinned, on a connected network, or of a family
   that is left alone.
   */
  lemma TransportSurvives(view: Snapshot, via: Option<string>, attached: Option<NodeId>,
                          transport: seq<Address>, resolvers: seq<Address>, local: seq<Prefix>, pinned: set<Address>)
    requires transport != []
    ensures var p := Pinning(transport, UnderlayToPin(transport + resolvers, local), pinned);
            var plan := PlanFor(view, via, attached, p);
            exists ip <- transport :: ip in pinned || OnLocal(ip, local) || !Arms(plan, ip.v6)
  {
    var p := Pinning(transport, UnderlayToPin(transport + resolvers, local), pinned);
    var plan := PlanFor(view, via, attached, p);
    var ip := transport[0];
    ArmedExactly(view, via, attached, p, ip.v6);
    if ip !in pinned && !OnLocal(ip, local) && Arms(plan, ip.v6) {
      assert ip in p.toPin && p.TransportLost(ip.v6);
      var other :| other in transport && other.v6 == !ip.v6;
      assert other !in p.toPin || other in pinned;
      assert other in pinned || OnLocal(other, local);
    }
  }

  /** A family with unpinned transport is armed only beside a whole one, so never both. */
  lemma DegradedAlone(view: Snapshot, via: Option<string>, attached: Option<NodeId>, p: Pinning, v6: bool)
    requires Arms(PlanFor(view, via, attached, p), v6) && p.TransportLost(v6)
    ensures p.TransportWhole(!v6) && !p.TransportLost(!v6)
  {
    ArmedExactly(view, via, attached, p, v6);
  }
}

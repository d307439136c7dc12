/**
 Who owns a prefix: the oldest living registrant, except that a returning older one waits out the
 hold-down before it takes the prefix from a living owner.
 */
module Ownership {
  import opened Base
  import opened Cidrs

  type NodeId = nat

  datatype Route = Route(cidr: Prefix, since: nat)

  datatype Record = Record(disabled: bool, routes: seq<Route>)

  // A registration of one prefix: who, and when it was first granted.
  datatype Grant = Grant(node: NodeId, since: nat)

  // What the directory reads of the leases: who is online, and since when (milliseconds).
  datatype Online = Online(since: map<NodeId, nat>) {
    predicate Is(n: NodeId) {
      n in since
    }
  }

  /** Older grant first; of two granted in the same second the lower node id. */
  predicate Older(a: Grant, b: Grant) {
    a.since < b.since || (a.since == b.since && a.node < b.node)
  }

  /** Every registration of a prefix by a member that is not disabled. */
  ghost function Grants(reg: map<NodeId, Record>, c: Prefix): set<Grant> {
    set n, r | n in reg && !reg[n].disabled && r in reg[n].routes && r.cidr == c :: Grant(n, r.since)
  }

  /** The living registrant no other living registrant is older than. */
  ghost predicate IsOldestLive(grants: set<Grant>, on: Online, g: Grant) {
    g in grants && on.Is(g.node) && forall h <- grants :: on.Is(h.node) ==> !Older(h, g)
  }

  // ---------- the registry's list of registrants ----------

  function InsertGrant(g: Grant, v: seq<Grant>): seq<Grant> {
    if v == [] || !Older(v[0], g) then [g] + v else [v[0]] + InsertGrant(g, v[1..])
  }

  function SortGrants(v: seq<Grant>): seq<Grant> {
    if v == [] then [] else InsertGrant(v[0], SortGrants(v[1..]))
  }

  ghost predicate OldestFirst(v: seq<Grant>) {
    forall i, j :: 0 <= i < j < |v| ==> !Older(v[j], v[i])
  }

  lemma {:induction false} InsertKeepsOrder(g: Grant, v: seq<Grant>)
    requires OldestFirst(v)
    ensures OldestFirst(InsertGrant(g, v))
    ensures forall x :: x in InsertGrant(g, v) <==> x == g || x in v
  {
    if !(v == [] || !Older(v[0], g)) {
      var r := InsertGrant(g, v[1..]);
      InsertKeepsOrder(g, v[1..]);
      forall x | x in r
        ensures !Older(x, v[0])
      {
        if x != g {
          var i :| 0 <= i < |v[1..]| && v[1..][i] == x;
          assert x == v[i + 1];
        }
      }
    }
  }

  lemma {:induction false} SortKeeps(v: seq<Grant>)
    ensures OldestFirst(SortGrants(v))
    ensures forall x :: x in SortGrants(v) <==> x in v
  {
    if v != [] {
      SortKeeps(v[1..]);
      InsertKeepsOrder(v[0], SortGrants(v[1..]));
      assert forall x :: x in v <==> x == v[0] || x in v[1..];
    }
  }

  /** The first living one of a list. */
  function FirstLive(v: seq<Grant>, on: Online): Option<NodeId> {
    if v == [] then None else if on.Is(v[0].node) then Some(v[0].node) else FirstLive(v[1..], on)
  }

  ghost function SetOf(v: seq<Grant>): set<Grant> {
    set x | x in v
  }

  lemma {:induction false} FirstLiveIsOldest(v: seq<Grant>, on: Online)
    requires OldestFirst(v)
    ensures FirstLive(v, on).None? <==> forall g <- v :: !on.Is(g.node)
    ensures FirstLive(v, on).Some? ==>
            exists g <- v :: g.node == FirstLive(v, on).value && IsOldestLive(SetOf(v), on, g)
  {
    if v != [] {
      if on.Is(v[0].node) {
        assert IsOldestLive(SetOf(v), on, v[0]);
      } else {
        FirstLiveIsOldest(v[1..], on);
        if FirstLive(v[1..], on).Some? {
          var g :| g in v[1..] && g.node == FirstLive(v[1..], on).value && IsOldestLive(SetOf(v[1..]), on, g);
          assert g in v;
          forall h | h in SetOf(v) && on.Is(h.node)
            ensures !Older(h, g)
          {
            assert h in v[1..];
          }
        }
      }
    }
  }

  // ---------- one prefix ----------

  /**
   The decision for one prefix: `current` is the owner so far, `best` the oldest living
   registrant. A living owner yields to a better one only after the hold-down.
   */
  function Decide(current: Option<NodeId>, best: Option<NodeId>, on: Online, now: nat, holdDown: nat): Option<NodeId> {
    if current.Some? && best.Some? && current == best then current
    else if current.Some? && best.Some? && on.Is(current.value) then
      var since := (if best.value in on.since then on.since[best.value] else 0) / 1000;
      if Monus(now, since) >= holdDown then best else current
    else best
  }

  ghost predicate Registered(reg: map<NodeId, Record>, c: Prefix, n: NodeId) {
    exists g <- Grants(reg, c) :: g.node == n
  }

  /** The oldest living registrant of a prefix, if it has a living one. */
  ghost predicate IsBest(reg: map<NodeId, Record>, c: Prefix, on: Online, best: Option<NodeId>) {
    match best
    case None => forall g <- Grants(reg, c) :: !on.Is(g.node)
    case Some(n) => exists g: Grant :: g.node == n && IsOldestLive(Grants(reg, c), on, g)
  }

  /** Registered for the prefix since `t`, not disabled, and online. */
  ghost predicate Contends(reg: map<NodeId, Record>, c: Prefix, on: Online, n: NodeId, t: nat) {
    n in reg && !reg[n].disabled && Route(c, t) in reg[n].routes && n in on.since
  }

  /** Registered since `t`, and nobody who contends was registered earlier, or as early under a lower id. */
  ghost predicate ContendsFirst(reg: map<NodeId, Record>, c: Prefix, on: Online, n: NodeId, t: nat) {
    && Contends(reg, c, on, n, t)
    && forall m: NodeId, u: nat :: Contends(reg, c, on, m, u) ==> t < u || (t == u && n <= m)
  }

  /** The best claim is the one registered first, by the lower id of two registered in the same second. */
  lemma BestIsFirst(reg: map<NodeId, Record>, c: Prefix, on: Online, n: NodeId)
    ensures IsBest(reg, c, on, Some(n)) <==>
            exists t: nat :: ContendsFirst(reg, c, on, n, t)
    ensures IsBest(reg, c, on, None) <==> forall m: NodeId, u: nat :: !Contends(reg, c, on, m, u)
  {
    forall m: NodeId, u: nat
      ensures Contends(reg, c, on, m, u) <==> Grant(m, u) in Grants(reg, c) && on.Is(m)
    {
      if Contends(reg, c, on, m, u) {
        var r := Route(c, u);
        assert r in reg[m].routes && r.cidr == c;
      }
    }
    if IsBest(reg, c, on, Some(n)) {
      var g: Grant :| g.node == n && IsOldestLive(Grants(reg, c), on, g);
      assert ContendsFirst(reg, c, on, n, g.since) by {
        assert Contends(reg, c, on, n, g.since);
        forall m: NodeId, u: nat | Contends(reg, c, on, m, u)
          ensures g.since < u || (g.since == u && n <= m)
        {
          assert !Older(Grant(m, u), g);
        }
      }
    }
    if t: nat :| ContendsFirst(reg, c, on, n, t) {
      assert IsOldestLive(Grants(reg, c), on, Grant(n, t));
    }
  }

  lemma OneBest(reg: map<NodeId, Record>, c: Prefix, on: Online, a: Option<NodeId>, b: Option<NodeId>)
    requires IsBest(reg, c, on, a) && IsBest(reg, c, on, b)
    ensures a == b
  {
    if a.Some? {
      var g: Grant :| g.node == a.value && IsOldestLive(Grants(reg, c), on, g);
      if b.Some? {
        var h: Grant :| h.node == b.value && IsOldestLive(Grants(reg, c), on, h);
      }
    }
  }

  /** What one recompute promises about a prefix, in terms of the registrations and the leases alone. */
  ghost predicate Fair(
    reg: map<NodeId, Record>, c: Prefix, on: Online, now: nat, holdDown: nat,
    current: Option<NodeId>, owner: Option<NodeId>)
  {
    // Owned exactly while somebody registered is alive, and only ever by somebody alive.
    && (owner.Some? <==> exists g <- Grants(reg, c) :: on.Is(g.node))
    && (owner.Some? ==> on.Is(owner.value))
    // A dead or missing owner is replaced at once by the oldest living registrant.
    && ((current.None? || !on.Is(current.value)) ==> IsBest(reg, c, on, owner))
    // A living owner is displaced only by the oldest living registrant, after its hold-down.
    && (current.Some? && owner.Some? && owner != current && on.Is(current.value) ==>
          && IsBest(reg, c, on, owner) && Monus(now, on.since[owner.value] / 1000) >= holdDown)
    // Once that hold-down is over, the oldest living registrant owns.
    && (forall n :: IsBest(reg, c, on, Some(n)) && n in on.since && Monus(now, on.since[n] / 1000) >= holdDown ==>
       owner == Some(n))
    // A living, still registered owner yields only to somebody older.
    && (current.Some? && on.Is(current.value) && Registered(reg, c, current.value) ==>
          owner.Some? && (owner != current ==> OlderThan(reg, c, owner.value, current.value)))
  }

  /** Some grant of `a` is older than every grant of `b`. */
  ghost predicate OlderThan(reg: map<NodeId, Record>, c: Prefix, a: NodeId, b: NodeId) {
    exists g <- Grants(reg, c) :: g.node == a && forall h <- Grants(reg, c) :: h.node == b ==> Older(g, h)
  }

  lemma DecideIsFair(reg: map<NodeId, Record>, c: Prefix, on: Online, now: nat, holdDown: nat, current: Option<NodeId>,
                     best: Option<NodeId>)
    requires IsBest(reg, c, on, best)
    ensures Fair(reg, c, on, now, holdDown, current, Decide(current, best, on, now, holdDown))
  {
    var owner := Decide(current, best, on, now, holdDown);
    if best.Some? {
      var g: Grant :| g.node == best.value && IsOldestLive(Grants(reg, c), on, g);
      if current.Some? && on.Is(current.value) && owner != current {
        assert forall h <- Grants(reg, c) :: h.node == current.value ==> Older(g, h);
      }
    }
    forall n | IsBest(reg, c, on, Some(n)) && n in on.since && Monus(now, on.since[n] / 1000) >= holdDown
      ensures owner == Some(n)
    {
      OneBest(reg, c, on, best, Some(n));
    }
  }

  // ---------- runs of recomputes ----------

  // One recompute's inputs for a prefix.
  datatype Inputs = Inputs(reg: map<NodeId, Record>, on: Online, now: nat)

  /** A run of recomputes: the owner before the first, then after each. */
  ghost predicate IsRun(c: Prefix, holdDown: nat, inputs: seq<Inputs>, owners: seq<Option<NodeId>>) {
    && |owners| == |inputs| + 1
    && forall k {:trigger inputs[k]} :: 0 <= k < |inputs| ==>
         Fair(inputs[k].reg, c, inputs[k].on, inputs[k].now, holdDown, owners[k], owners[k + 1])
  }

  /** Registrations, leases and hence the oldest living registrant stay as they are from step `j` on. */
  ghost predicate Unchanged(inputs: seq<Inputs>, j: nat) {
    forall k :: j <= k < |inputs| ==> inputs[k].reg == inputs[j].reg && inputs[k].on == inputs[j].on
  }

  /**
   While nobody comes or goes, ownership changes at most once: the owner stays until the oldest
   living registrant has waited out the hold-down, and from then on that one owns.
   */
  lemma {:induction false} OwnershipSettles(
    c: Prefix, holdDown: nat, inputs: seq<Inputs>, owners: seq<Option<NodeId>>, j: nat, k: nat, best: NodeId)
    requires IsRun(c, holdDown, inputs, owners) && j <= k < |inputs| && Unchanged(inputs, j)
    requires IsBest(inputs[j].reg, c, inputs[j].on, Some(best)) && best in inputs[j].on.since
    requires forall a, b :: j <= a < b < |inputs| ==> inputs[a].now <= inputs[b].now
    ensures owners[k + 1] == owners[j + 1] || owners[k + 1] == Some(best)
    ensures owners[k] == Some(best) && k > j ==> owners[k + 1] == Some(best)
    ensures Monus(inputs[k].now, inputs[j].on.since[best] / 1000) >= holdDown ==> owners[k + 1] == Some(best)
    decreases k - j
  {
    var i := inputs[k];
    assert i.reg == inputs[j].reg && i.on == inputs[j].on;
    assert Fair(i.reg, c, i.on, i.now, holdDown, owners[k], owners[k + 1]);
    if k > j {
      OwnershipSettles(c, holdDown, inputs, owners, j, k - 1, best);
      Stays(i, c, holdDown, owners[k], owners[k + 1], best);
      var was := inputs[k - 1];
      assert Fair(was.reg, c, was.on, was.now, holdDown, owners[k - 1], owners[k]);
      assert was.on == i.on && was.reg == i.reg;
    }
  }

  lemma Stays(i: Inputs, c: Prefix, holdDown: nat, current: Option<NodeId>, owner: Option<NodeId>, best: NodeId)
    requires Fair(i.reg, c, i.on, i.now, holdDown, current, owner) && IsBest(i.reg, c, i.on, Some(best))
    ensures owner == current || owner == Some(best)
    ensures current == Some(best) ==> owner == Some(best)
  {
    if owner != current {
      OneBest(i.reg, c, i.on, owner, Some(best)) by {
        var g: Grant :| g.node == best && IsOldestLive(Grants(i.reg, c), i.on, g);
        assert g in Grants(i.reg, c);
      }
    }
  }

  // ---------- the directory's table ----------

  function Lookup<T>(m: map<Prefix, T>, c: Prefix): Option<T> {
    if c in m then Some(m[c]) else None
  }

  class Directory {
    var owners: map<Prefix, NodeId>
    const holdDown: nat

    constructor (holdDownSecs: nat)
      ensures owners == map[] && holdDown == holdDownSecs
    {
      owners, holdDown := map[], holdDownSecs;
    }

    /** Resolve every registered prefix anew; a prefix nobody registers loses its owner. */
    method Resolve(reg: map<NodeId, Record>, on: Online, now: nat)
      modifies this
      ensures forall c: Prefix :: Fair(reg, c, on, now, holdDown, Lookup(old(owners), c), Lookup(owners, c))
    {
      var lists := Registrants(reg);
      var todo := lists.Keys;
      var next: map<Prefix, NodeId> := map[];
      while todo != {}
        invariant todo <= lists.Keys && next.Keys !! todo && next.Keys <= lists.Keys && owners == old(owners)
        invariant forall c <- lists.Keys - todo :: Fair(reg, c, on, now, holdDown, Lookup(owners, c), Lookup(next, c))
        decreases |todo|
      {
        var c := Pick(todo);
        var sorted := SortGrants(lists[c]);
        var best := FirstLive(sorted, on);
        var owner := Decide(Lookup(owners, c), best, on, now, holdDown);
        BestOfList(reg, c, on, lists[c]);
        DecideIsFair(reg, c, on, now, holdDown, Lookup(owners, c), best);
        if owner.Some? {
          next := next[c := owner.value];
        }
        todo := todo - {c};
      }
      forall c: Prefix
        ensures Fair(reg, c, on, now, holdDown, Lookup(old(owners), c), Lookup(next, c))
      {
        if c !in lists {
          DecideIsFair(reg, c, on, now, holdDown, Lookup(old(owners), c), None);
        }
      }
      owners := next;
    }
  }

  /** The first living one of the sorted list is the oldest living registrant. */
  lemma BestOfList(reg: map<NodeId, Record>, c: Prefix, on: Online, v: seq<Grant>)
    requires SetOf(v) == Grants(reg, c)
    ensures IsBest(reg, c, on, FirstLive(SortGrants(v), on))
  {
    SortKeeps(v);
    FirstLiveIsOldest(SortGrants(v), on);
    assert SetOf(SortGrants(v)) == SetOf(v);
  }

  /** Every prefix somebody not disabled registers, with all its registrations. */
  method Registrants(reg: map<NodeId, Record>) returns (lists: map<Prefix, seq<Grant>>)
    ensures forall c: Prefix :: if c in lists then SetOf(lists[c]) == Grants(reg, c) else Grants(reg, c) == {}
  {
    lists := map[];
    var todo := reg.Keys;
    ghost var done: map<NodeId, Record> := map[];
    while todo != {}
      invariant todo <= reg.Keys && done == reg - todo
      invariant Collects(lists, done)
      decreases |todo|
    {
      var n := Pick(todo);
      if !reg[n].disabled {
        lists := AddRoutes(lists, done, n, reg[n]);
      } else {
        SkipDisabled(lists, done, n, reg[n]);
      }
      todo := todo - {n};
      done := done[n := reg[n]];
    }
    assert done == reg;
  }

  ghost predicate Collects(lists: map<Prefix, seq<Grant>>, reg: map<NodeId, Record>) {
    forall c: Prefix :: if c in lists then SetOf(lists[c]) == Grants(reg, c) else Grants(reg, c) == {}
  }

  lemma SkipDisabled(lists: map<Prefix, seq<Grant>>, reg: map<NodeId, Record>, n: NodeId, rec: Record)
    requires Collects(lists, reg) && n !in reg && rec.disabled
    ensures Collects(lists, reg[n := rec])
  {
    forall c: Prefix
      ensures Grants(reg[n := rec], c) == Grants(reg, c)
    {
      var more := reg[n := rec];
      forall g | g in Grants(reg, c)
        ensures g in Grants(more, c)
      {
        var r :| r in reg[g.node].routes && r.cidr == c && r.since == g.since;
        assert r in more[g.node].routes;
      }
    }
  }

  /** One member's registrations, appended to the list of each of its prefixes. */
  method AddRoutes(lists: map<Prefix, seq<Grant>>, ghost reg: map<NodeId, Record>, n: NodeId, rec: Record)
    returns (r: map<Prefix, seq<Grant>>)
    requires Collects(lists, reg) && n !in reg && !rec.disabled
    ensures Collects(r, reg[n := rec])
  {
    r := lists;
    var i := 0;
    SkipDisabledRoutes(lists, reg, n);
    while i < |rec.routes|
      invariant 0 <= i <= |rec.routes|
      invariant Collects(r, reg[n := Record(false, rec.routes[..i])])
    {
      var t := rec.routes[i];
      var had := if t.cidr in r then r[t.cidr] else [];
      OneMoreRoute(r, reg, n, rec.routes, i);
      r := r[t.cidr := had + [Grant(n, t.since)]];
      i := i + 1;
    }
    assert rec.routes[..i] == rec.routes;
  }

  lemma SkipDisabledRoutes(lists: map<Prefix, seq<Grant>>, reg: map<NodeId, Record>, n: NodeId)
    requires Collects(lists, reg) && n !in reg
    ensures Collects(lists, reg[n := Record(false, [])])
  {
    forall c: Prefix
      ensures Grants(reg[n := Record(false, [])], c) == Grants(reg, c)
    {
      var more := reg[n := Record(false, [])];
      forall g | g in Grants(reg, c)
        ensures g in Grants(more, c)
      {
        var r :| r in reg[g.node].routes && r.cidr == c && r.since == g.since;
        assert r in more[g.node].routes;
      }
    }
  }

  lemma OneMoreRoute(lists: map<Prefix, seq<Grant>>, reg: map<NodeId, Record>, n: NodeId, routes: seq<Route>, i: nat)
    requires n !in reg && i < |routes| && Collects(lists, reg[n := Record(false, routes[..i])])
    ensures var t := routes[i]; var had := if t.cidr in lists then lists[t.cidr] else [];
            Collects(lists[t.cidr := had + [Grant(n, t.since)]], reg[n := Record(false, routes[..i + 1])])
  {
    var t := routes[i];
    var had := if t.cidr in lists then lists[t.cidr] else [];
    var r0, r1 := reg[n := Record(false, routes[..i])], reg[n := Record(false, routes[..i + 1])];
    assert SetOf(had + [Grant(n, t.since)]) == SetOf(had) + {Grant(n, t.since)};
    forall c: Prefix
      ensures Grants(r1, c) == if c == t.cidr then Grants(r0, c) + {Grant(n, t.since)} else Grants(r0, c)
    {
      GrantsOfOneMore(reg, n, routes, i, c);
    }
  }

  lemma GrantsOfOneMore(reg: map<NodeId, Record>, n: NodeId, routes: seq<Route>, i: nat, c: Prefix)
    requires n !in reg && i < |routes|
    ensures var r0, r1 := reg[n := Record(false, routes[..i])], reg[n := Record(false, routes[..i + 1])];
            Grants(r1, c) == if c == routes[i].cidr then Grants(r0, c) + {Grant(n, routes[i].since)} else Grants(r0, c)
  {
    var r0, r1 := reg[n := Record(false, routes[..i])], reg[n := Record(false, routes[..i + 1])];
    var t := routes[i];
    assert routes[..i + 1] == routes[..i] + [t];
    forall g | g in Grants(r1, c)
      ensures g in Grants(r0, c) || (c == t.cidr && g == Grant(n, t.since))
    {
      var r :| r in r1[g.node].routes && r.cidr == c && r.since == g.since;
      if r in r0[g.node].routes {
      } else {
        assert g.node == n && r == t;
      }
    }
    forall g | g in Grants(r0, c)
      ensures g in Grants(r1, c)
    {
      var r :| r in r0[g.node].routes && r.cidr == c && r.since == g.since;
      assert r in r1[g.node].routes;
    }
    assert t in r1[n].routes;
  }
}

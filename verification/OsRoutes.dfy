/**
 The host's own routing table: which wanted prefixes may be installed beside the connected
 networks, and the reconciliation of the tunnel device's routes with what is wanted.
 */
module OsRoutes {
  import opened Base
  import opened Cidrs
  import opened Snapshots
  import Routes

  // ---------- exclusion ----------

  datatype Reason = InsideLocal(l: Prefix) | CapturesUnderlay(u: Address)

  /** The first connected network the prefix lies in. */
  function FirstHolding(local: seq<Prefix>, w: Prefix): (r: Option<Prefix>)
    ensures r.Some? ==> r.value in local && r.value.Contains(w)
    ensures r.None? ==> forall l <- local :: !l.Contains(w)
  {
    if local == [] then None else if local[0].Contains(w) then Some(local[0]) else FirstHolding(local[1..], w)
  }

  /** A connected network more specific than the route keeps the host off the tunnel. */
  predicate Protected(u: Address, local: seq<Prefix>, w: Prefix) {
    exists l <- local :: l.Has(u) && l.len > w.len
  }

  function FirstCaptured(underlay: seq<Address>, local: seq<Prefix>, w: Prefix): (r: Option<Address>)
    ensures r.Some? ==> r.value in underlay && w.Has(r.value) && !Protected(r.value, local, w)
    ensures r.None? ==> forall u <- underlay :: w.Has(u) ==> Protected(u, local, w)
  {
    if underlay == [] then None
    else if w.Has(underlay[0]) && !Protected(underlay[0], local, w) then Some(underlay[0])
    else FirstCaptured(underlay[1..], local, w)
  }

  /** What keeps a prefix out of the table: a connected network, or an underlay address it covers. */
  function ExclusionReason(w: Prefix, local: seq<Prefix>, underlay: seq<Address>): Option<Reason> {
    match FirstHolding(local, w)
    case Some(l) => Some(InsideLocal(l))
    case None =>
      match FirstCaptured(underlay, local, w)
      case Some(u) => Some(CapturesUnderlay(u))
      case None => None
  }

  /** Wanted routes split into the installable and the excluded, each in order, none lost. */
  method ExcludeLocal(wanted: seq<Prefix>, local: seq<Prefix>, underlay: seq<Address>)
    returns (keep: seq<Prefix>, out: seq<(Prefix, Reason)>)
    ensures forall w <- keep :: w in wanted && ExclusionReason(w, local, underlay).None?
    ensures forall x <- out :: x.0 in wanted && ExclusionReason(x.0, local, underlay) == Some(x.1)
    ensures forall w <- wanted :: w in keep || exists x <- out :: x.0 == w
    ensures |keep| + |out| == |wanted|
  {
    keep, out := [], [];
    var i := 0;
    while i < |wanted|
      invariant 0 <= i <= |wanted| && |keep| + |out| == i
      invariant forall w <- keep :: w in wanted && ExclusionReason(w, local, underlay).None?
      invariant forall x <- out :: x.0 in wanted && ExclusionReason(x.0, local, underlay) == Some(x.1)
      invariant forall w <- wanted[..i] :: w in keep || exists x <- out :: x.0 == w
    {
      var w := wanted[i];
      ghost var keep0, out0 := keep, out;
      match ExclusionReason(w, local, underlay) {
        case Some(r) => out := out + [(w, r)];
        case None => keep := keep + [w];
      }
      forall v | v in wanted[..i + 1]
        ensures v in keep || exists x <- out :: x.0 == v
      {
        if v in wanted[..i] {
          assert v in keep0 || exists x <- out0 :: x.0 == v;
        } else {
          assert v == w;
          if out != out0 { assert out[|out0|].0 == w; }
        }
      }
      i := i + 1;
    }
    assert wanted[..i] == wanted;
  }

  // ---------- longest-prefix match in the host's table ----------

  datatype Hop = Tunnel | Off(link: nat)

  datatype Entry = Entry(net: Prefix, hop: Hop)

  ghost predicate Chosen(table: set<Entry>, ip: Address, e: Entry) {
    && e in table && e.net.Has(ip)
    && forall f <- table :: f.net.Has(ip) ==> f.net.len <= e.net.len
  }

  ghost function Installed(keep: seq<Prefix>): set<Entry> {
    set w | w in keep :: Entry(w, Tunnel)
  }

  /** A kept route is less specific than the connected network of any address they share. */
  lemma KeptIsWider(w: Prefix, local: seq<Prefix>, underlay: seq<Address>, l: Prefix, ip: Address)
    requires ExclusionReason(w, local, underlay).None? && l in local && l.Has(ip) && w.Has(ip)
    ensures w.len < l.len
  {
    assert !l.Contains(w);
    if l.len <= w.len {
      SharedMeansNested(l, w, ip);
    }
  }

  /** Every kept route that covers a protected address loses to an off-tunnel route. */
  lemma KeptLoses(w: Prefix, local: seq<Prefix>, underlay: seq<Address>, ip: Address) returns (l: Prefix)
    requires ExclusionReason(w, local, underlay).None? && w.Has(ip)
    requires ip in underlay || exists n <- local :: n.Has(ip)
    ensures l in local && l.Has(ip) && w.len < l.len
  {
    assert ip in underlay ==> Protected(ip, local, w);
    l :| l in local && l.Has(ip);
    KeptIsWider(w, local, underlay, l, ip);
  }

  /**
   Installing the kept routes changes nothing for an address on a connected network or an
   underlay host: longest-prefix match chooses exactly what it chose before, off the tunnel.
   */
  lemma OffTunnelStaysOff(table: set<Entry>, keep: seq<Prefix>, local: seq<Prefix>, underlay: seq<Address>, ip: Address)
    requires forall e <- table :: e.hop.Off?
    requires forall l <- local :: exists e <- table :: e.net == l
    requires forall w <- keep :: ExclusionReason(w, local, underlay).None?
    requires ip in underlay || exists n <- local :: n.Has(ip)
    ensures forall e :: Chosen(table + Installed(keep), ip, e) <==> Chosen(table, ip, e)
    ensures forall e :: Chosen(table + Installed(keep), ip, e) ==> e.hop.Off?
  {
    var all := table + Installed(keep);
    forall f | f in Installed(keep) && f.net.Has(ip)
      ensures exists b <- table :: b.net.Has(ip) && b.net.len > f.net.len
    {
      var l := KeptLoses(f.net, local, underlay, ip);
      var b :| b in table && b.net == l;
    }
  }

  // ---------- the kernel's table ----------

  function Truncs(ns: seq<Prefix>): set<Prefix> {
    set n | n in ns :: n.Trunc()
  }

  /** A table in which every route is spelt truncated, as the kernel keeps them. */
  ghost predicate Kernel(table: set<Prefix>) {
    forall n <- table :: n.Trunc() == n
  }

  // The tunnel device's routes in the kernel, the calls made to it, and what a reconcile remembers.
  class RouteSet {
    var table: set<Prefix>
    var calls: nat
    var boundTo: Option<set<Prefix>>
    var installed: set<Prefix>

    constructor (present: set<Prefix>)
      ensures table == present && calls == 0 && boundTo.None? && installed == {}
    {
      table, calls, boundTo, installed := present, 0, None, {};
    }

    /** `broken` are the prefixes for which the operating system refuses the call. */
    method Remove(net: Prefix, broken: set<Prefix>) returns (ok: bool)
      modifies `table, `calls
      ensures calls == old(calls) + 1 && ok == (net !in broken)
      ensures table == if ok then old(table) - {net} else old(table)
    {
      calls := calls + 1;
      ok := net !in broken;
      if ok {
        table := table - {net};
      }
    }

    method Add(net: Prefix, broken: set<Prefix>) returns (ok: bool)
      modifies `table, `calls
      ensures calls == old(calls) + 1 && ok == (net !in broken)
      ensures table == if ok then old(table) + {net} else old(table)
    {
      calls := calls + 1;
      ok := net !in broken;
      if ok {
        table := table + {net};
      }
    }

    /** True when this node was given other addresses than at the last programming. */
    method Readdressed(mine: set<Prefix>) returns (changed: bool)
      modifies `boundTo
      ensures changed == (old(boundTo).Some? && old(boundTo).value != mine) && boundTo == Some(mine)
    {
      changed := boundTo.Some? && boundTo.value != mine;
      boundTo := Some(mine);
    }

    method RemoveAll(nets: set<Prefix>, broken: set<Prefix>)
      modifies `table, `calls
      ensures table == old(table) - (nets - broken) && calls == old(calls) + |nets|
    {
      var todo := nets;
      while todo != {}
        invariant todo <= nets && calls + |todo| == old(calls) + |nets|
        invariant table == old(table) - ((nets - todo) - broken)
        decreases |todo|
      {
        var n := Pick(todo);
        var ok := Remove(n, broken);
        todo := todo - {n};
      }
    }

    method AddAll(nets: set<Prefix>, broken: set<Prefix>) returns (failed: bool)
      modifies `table, `calls
      ensures table == old(table) + (nets - broken) && calls == old(calls) + |nets|
      ensures failed <==> exists n :: n in nets && n in broken
    {
      var todo := nets;
      failed := false;
      while todo != {}
        invariant todo <= nets && calls + |todo| == old(calls) + |nets|
        invariant table == old(table) + ((nets - todo) - broken)
        invariant failed <==> exists n :: n in nets && n !in todo && n in broken
        decreases |todo|
      {
        var n := Pick(todo);
        var ok := Add(n, broken);
        todo := todo - {n};
        failed := failed || !ok;
      }
    }

    /**
     The device ends up with `wanted`, compared with what the kernel says it holds; the networks of
     `mine`, which the kernel routes by itself, are not touched. Under new addresses of our own
     every route is taken off and put back.
     */
    method ReconcileViaKernel(wanted: seq<Prefix>, mine: seq<Prefix>, broken: set<Prefix>) returns (r: Result<(), ()>)
      requires Kernel(table)
      modifies this
      ensures var run := Reconcile(old(table), old(boundTo), Truncs(wanted), Truncs(mine));
              && table == run.After(old(table), broken)
              && calls == old(calls) + run.Calls()
              && (r.Err? <==> exists n :: n in run.add && n in broken)
      ensures boundTo == Some(Truncs(mine)) && installed == Truncs(wanted)
    {
      var w, m := Truncs(wanted), Truncs(mine);
      var ours := Ours(table, m);
      var changed := Readdressed(m);
      var failed := Rounds(ours, w, changed && ours != {}, broken);
      installed := w;
      r := if failed then Err(()) else Ok(());
    }

    /** The three rounds of calls: everything off the device if it is to be re-bound, then the difference. */
    method Rounds(present: set<Prefix>, wanted: set<Prefix>, rebind: bool, broken: set<Prefix>) returns (failed: bool)
      modifies `table, `calls
      ensures var run := if rebind then Run(present, {}, wanted) else Run({}, present - wanted, wanted - present);
              && table == run.After(old(table), broken)
              && calls == old(calls) + run.Calls()
              && (failed <==> exists n :: n in run.add && n in broken)
    {
      var ours := present;
      if rebind {
        RemoveAll(ours, broken);
        ours := {};
      }
      NothingLess(wanted);
      RemoveAll(ours - wanted, broken);
      failed := AddAll(wanted - ours, broken);
    }
  }

  lemma NothingLess<T>(s: set<T>)
    ensures {} - s == {} && s - {} == s
  {
  }

  function Ours(table: set<Prefix>, mine: set<Prefix>): set<Prefix> {
    set n | n in table && n.Trunc() !in mine :: n.Trunc()
  }

  // The calls of one reconcile, in three rounds.
  datatype Run = Run(unbind: set<Prefix>, remove: set<Prefix>, add: set<Prefix>) {
    function Calls(): nat {
      |unbind| + |remove| + |add|
    }

    function After(table: set<Prefix>, broken: set<Prefix>): set<Prefix> {
      table - (unbind - broken) - (remove - broken) + (add - broken)
    }
  }

  function Reconcile(table: set<Prefix>, boundTo: Option<set<Prefix>>, wanted: set<Prefix>, mine: set<Prefix>): Run {
    var ours := Ours(table, mine);
    if boundTo.Some? && boundTo.value != mine && ours != {}
    then Run(ours, {}, wanted)
    else Run({}, ours - wanted, wanted - ours)
  }

  lemma OursIs(table: set<Prefix>, mine: set<Prefix>)
    requires Kernel(table)
    ensures Ours(table, mine) == table - mine
  {
    assert forall n <- table - mine :: n.Trunc() in Ours(table, mine);
  }

  /**
   When the system refuses no call, a reconcile ends, from any table, at exactly the wanted
   routes plus the connected routes of our own addresses; running it again makes one call for
   each wanted prefix that is itself one of our own, so none exactly if there is no such prefix.
   */
  lemma ReconcileSettles(table: set<Prefix>, boundTo: Option<set<Prefix>>, wanted: set<Prefix>, mine: set<Prefix>)
    requires Kernel(table) && Kernel(wanted)
    ensures var after := Reconcile(table, boundTo, wanted, mine).After(table, {});
            && after == wanted + table * mine
            && Reconcile(after, Some(mine), wanted, mine).After(after, {}) == after
            && Reconcile(after, Some(mine), wanted, mine).Calls() == |wanted * mine|
            && (Reconcile(after, Some(mine), wanted, mine).Calls() == 0 <==> wanted * mine == {})
  {
    OursIs(table, mine);
    SameEnd(table, wanted, mine);
    var after := wanted + table * mine;
    assert Reconcile(table, boundTo, wanted, mine).After(table, {}) == after;
    OursIs(after, mine);
    SecondRun(table, wanted, mine);
  }

  /**
   The calls of a reconcile: under addresses of our own that changed since the last one, every route of
   the device goes and every wanted one is put back; otherwise no route that is wanted and there is touched.
   */
  lemma ReaddressingRebinds(table: set<Prefix>, boundTo: Option<set<Prefix>>, wanted: set<Prefix>, mine: set<Prefix>)
    requires Kernel(table)
    ensures var run := Reconcile(table, boundTo, wanted, mine);
            if boundTo.Some? && boundTo.value != mine && (exists n <- table :: n !in mine)
            then run.unbind == table - mine && run.remove == {} && run.add == wanted
            else && run.unbind == {}
                 && (forall n :: n in run.remove <==> n in table && n !in mine && n !in wanted)
                 && (forall n :: n in run.add <==> n in wanted && (n !in table || n in mine))
  {
    OursIs(table, mine);
    NothingShared(table, mine);
    if n :| n in table && n !in mine {
      assert n in Ours(table, mine);
    }
  }

  /** Both ways of reconciling end in the same place. */
  lemma SameEnd<T>(table: set<T>, wanted: set<T>, mine: set<T>)
    ensures table - ((table - mine) - {}) - ({} - {}) + (wanted - {}) == wanted + table * mine
    ensures table - ({} - {}) - ((table - mine) - wanted - {}) + (wanted - (table - mine) - {}) == wanted + table * mine
  {
  }

  lemma SecondRun<T>(table: set<T>, wanted: set<T>, mine: set<T>)
    ensures var after := wanted + table * mine;
            && (after - mine) - wanted == {} && wanted - (after - mine) == wanted * mine
            && after - ({} - {}) - ({} - {}) + (wanted * mine - {}) == after
  {
  }

  /**
   Whatever part of a view's wanted routes is reconciled, from any table, running it again changes
   nothing, and makes no call unless a default is reserved, wanted and one of our own prefixes.
   */
  lemma ViewReconcileSettles(view: Snapshot, me: NodeId, mine: seq<Prefix>, policy: Option<Routes.RoutePolicy>,
                             keep: set<Prefix>, table: set<Prefix>, boundTo: Option<set<Prefix>>)
    requires Kernel(table) && keep <= Routes.Wanted(view, me, mine, policy)
    ensures var m := Truncs(mine);
            var after := Reconcile(table, boundTo, keep, m).After(table, {});
            var again := Reconcile(after, Some(m), keep, m);
            && after == keep + table * m && again.After(after, {}) == after
            && (again.Calls() == 0 <==> forall w <- keep :: w.len == 0 && w in Routes.Reserved(view, policy) ==>
               w !in m)
  {
    var m := Truncs(mine);
    Routes.WantedIsTruncated(view, me, mine, policy);
    ReconcileSettles(table, boundTo, keep, m);
    forall w | w in keep && w in m
      ensures w.len == 0 && w in Routes.Reserved(view, policy)
    {
      var p :| p in mine && p.Trunc() == w;
      Routes.WantedIsNotOurs(view, me, mine, policy, w);
    }
    NothingShared(keep, m);
  }

  lemma NothingShared<T>(a: set<T>, b: set<T>)
    ensures a * b == {} <==> forall x <- a :: x !in b
  {
    assert forall x <- a :: x in b ==> x in a * b;
  }
}

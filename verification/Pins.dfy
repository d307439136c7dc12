/**
 Underlay pins: host routes through the real gateway, journaled ahead of the kernel so that a
 process that dies at any instant leaves nothing behind that the next one does not know it owns.
 */
module Pins {
  import opened Base

  type Addr = nat

  type Gateway = nat

  datatype Pin = Pin(ip: Addr, gw: Gateway)

  datatype Outcome = Created | Present | Failed

  // The journal file, the routes in the kernel this program created, and everybody else's.
  datatype Host = Host(journal: map<Addr, Gateway>, ours: set<Pin>, foreign: set<Pin>) {
    function Record(ip: Addr, gw: Gateway): Host {
      this.(journal := journal[ip := gw])
    }

    function Forget(ip: Addr): Host {
      this.(journal := journal - {ip})
    }

    function Add(ip: Addr, gw: Gateway, works: bool): (Host, Outcome) {
      if !works then (this, Failed)
      else if Pin(ip, gw) in ours + foreign then (this, Present)
      else (this.(ours := ours + {Pin(ip, gw)}), Created)
    }

    /** A route goes, whoever put it there, unless the kernel refuses; nobody is told either way. */
    function Delete(ip: Addr, gw: Gateway, works: bool): Host {
      if works then this.(ours := ours - {Pin(ip, gw)}, foreign := foreign - {Pin(ip, gw)}) else this
    }

    predicate Journaled(p: Pin) {
      p.ip in journal && journal[p.ip] == p.gw
    }

    /** Every route we created and have not deleted is journaled with the gateway it was created with. */
    ghost predicate Safe() {
      forall p <- ours :: Journaled(p)
    }

    /** The journal lists nothing but what we own. */
    ghost predicate Exact() {
      forall ip <- journal :: Pin(ip, journal[ip]) in ours
    }
  }

  /** Deleting a journaled route and forgetting it is safe exactly if the kernel obeyed or had no such route of ours. */
  lemma DeleteThenForgetIff(h: Host, ip: Addr, works: bool)
    requires h.Safe() && ip in h.journal
    ensures h.Delete(ip, h.journal[ip], works).Forget(ip).Safe() <==> works || Pin(ip, h.journal[ip]) !in h.ours
  {
    var p, after := Pin(ip, h.journal[ip]), h.Delete(ip, h.journal[ip], works).Forget(ip);
    if !works && p in h.ours {
      assert p in after.ours && !after.Journaled(p);
    } else {
      assert forall q <- after.ours :: q in h.ours && q != p && h.Journaled(q);
    }
  }

  // ---------- the operations one at a time, with crashes between any two ----------

  // Where a reconcile stands: what it did last, and what it still has to do.
  datatype Pc =
    | Idle
    | Sweeping(want: set<Addr>)
    | Swept(want: set<Addr>, ip: Addr)
    | Visiting(want: set<Addr>, todo: set<Addr>)
    | Moved(want: set<Addr>, todo: set<Addr>, ip: Addr, gw: Gateway)
    | Recording(want: set<Addr>, todo: set<Addr>, ip: Addr, gw: Gateway)
    | Adding(want: set<Addr>, todo: set<Addr>, ip: Addr, gw: Gateway)
    | Undoing(want: set<Addr>, todo: set<Addr>, ip: Addr)

  // `refused` are routes of ours the kernel would not delete, `lost` foreign routes we deleted;
  // `tainted` says that an entry once outlived the route it stood for.
  datatype State = State(host: Host, pc: Pc, refused: set<Pin>, lost: set<Pin>, tainted: bool)

  datatype Event =
    | Begin(want: set<Addr>)
    | DeleteStale(ip: Addr, works: bool)
    | ForgetStale
    | SweepDone
    | Visit(ip: Addr, gateway: Option<Gateway>, works: bool)
    | ForgetMoved
    | RecordPin
    | AddPin(works: bool)
    | Undo
    | Done
    | Others(foreign: set<Pin>)
    | Vanish(p: Pin)
    | Crash

  /** Other programs come and go with routes of their own; the kernel may drop one of ours. */
  predicate Enabled(s: State, e: Event) {
    match e
    case Begin(_) => s.pc.Idle?
    case DeleteStale(ip, _) => s.pc.Sweeping? && ip in s.host.journal && ip !in s.pc.want
    case ForgetStale => s.pc.Swept?
    case SweepDone => s.pc.Sweeping? && s.host.journal.Keys <= s.pc.want
    case Visit(ip, _, _) => s.pc.Visiting? && ip in s.pc.todo
    case ForgetMoved => s.pc.Moved?
    case RecordPin => s.pc.Recording?
    case AddPin(_) => s.pc.Adding?
    case Undo => s.pc.Undoing?
    case Done => s.pc.Visiting? && s.pc.todo == {}
    case Others(foreign) => foreign !! s.host.ours
    case Vanish(p) => p in s.host.ours
    case Crash => true
  }

  /** One deletion in the kernel, noting what it left behind and what it took from others. */
  function Deleting(s: State, ip: Addr, works: bool, pc: Pc): State
    requires ip in s.host.journal
  {
    var p := Pin(ip, s.host.journal[ip]);
    State(s.host.Delete(ip, p.gw, works), pc,
          if works then s.refused else s.refused + ({p} * s.host.ours),
          if works then s.lost + ({p} * s.host.foreign) else s.lost,
          s.tainted)
  }

  function Visited(s: State, ip: Addr, gateway: Option<Gateway>, works: bool): State
    requires s.pc.Visiting? && ip in s.pc.todo
  {
    var want, todo, journal := s.pc.want, s.pc.todo - {ip}, s.host.journal;
    if gateway.None? then s.(pc := Visiting(want, todo))
    else if ip in journal && journal[ip] == gateway.value then s.(pc := Visiting(want, todo))
    else if ip in journal then Deleting(s, ip, works, Moved(want, todo, ip, gateway.value))
    else s.(pc := Recording(want, todo, ip, gateway.value))
  }

  /** The host whose pin is being changed, between its two journal operations. */
  function InHand(pc: Pc): Option<Addr> {
    match pc
    case Swept(_, ip) => Some(ip)
    case Moved(_, _, ip, _) => Some(ip)
    case Recording(_, _, ip, _) => Some(ip)
    case Adding(_, _, ip, _) => Some(ip)
    case Undoing(_, _, ip) => Some(ip)
    case _ => None
  }

  /** A crash now leaves the host in hand journaled although no route of ours stands for it. */
  predicate Exposed(s: State) {
    && InHand(s.pc).Some? && InHand(s.pc).value in s.host.journal
    && Pin(InHand(s.pc).value, s.host.journal[InHand(s.pc).value]) !in s.host.ours
  }

  function Step(s: State, e: Event): State
    requires Enabled(s, e)
  {
    match e
    case Begin(want) => s.(pc := Sweeping(want))
    case DeleteStale(ip, works) => Deleting(s, ip, works, Swept(s.pc.want, ip))
    case ForgetStale => s.(host := s.host.Forget(s.pc.ip), pc := Sweeping(s.pc.want))
    case SweepDone => s.(pc := Visiting(s.pc.want, s.pc.want))
    case Visit(ip, gateway, works) => Visited(s, ip, gateway, works)
    case ForgetMoved =>
      s.(host := s.host.Forget(s.pc.ip), pc := Recording(s.pc.want, s.pc.todo, s.pc.ip, s.pc.gw))
    case RecordPin =>
      s.(host := s.host.Record(s.pc.ip, s.pc.gw), pc := Adding(s.pc.want, s.pc.todo, s.pc.ip, s.pc.gw))
    case AddPin(works) =>
      var (h, o) := s.host.Add(s.pc.ip, s.pc.gw, works);
      s.(host := h,
         pc := if o == Created then Visiting(s.pc.want, s.pc.todo) else Undoing(s.pc.want, s.pc.todo, s.pc.ip))
    case Undo => s.(host := s.host.Forget(s.pc.ip), pc := Visiting(s.pc.want, s.pc.todo))
    case Done => s.(pc := Idle)
    case Others(foreign) => s.(host := s.host.(foreign := foreign))
    case Vanish(p) => s.(host := s.host.(ours := s.host.ours - {p}), tainted := s.tainted || s.host.Journaled(p))
    case Crash => s.(pc := Idle, tainted := s.tainted || Exposed(s))
  }

  /**
   One of our routes goes in a step exactly if the kernel dropped it, or obeyed a deletion of a host that is
   journaled with that gateway and either no longer wanted or now reached through another one.
   */
  lemma PinGoesIff(s: State, e: Event, p: Pin)
    requires Enabled(s, e) && p in s.host.ours
    ensures p !in Step(s, e).host.ours <==>
            || e == Vanish(p)
            || (e == DeleteStale(p.ip, true) && s.host.Journaled(p))
            || (e.Visit? && e.ip == p.ip && e.works && s.host.Journaled(p) &&
                e.gateway.Some? && e.gateway.value != p.gw)
  {
  }

  /** One of our routes comes exactly if it was about to be added, the kernel obeyed and nobody else had it. */
  lemma PinComesIff(s: State, e: Event, p: Pin)
    requires Enabled(s, e) && p !in s.host.ours
    ensures p in Step(s, e).host.ours <==>
            e == AddPin(true) && s.pc.ip == p.ip && s.pc.gw == p.gw && p !in s.host.foreign
  {
  }

  /** After the sweep only wanted hosts are journaled. */
  ghost predicate OnlyWanted(s: State) {
    match s.pc
    case Visiting(want, todo) => todo <= want && s.host.journal.Keys <= want
    case Moved(want, todo, ip, _) => todo <= want && ip in want && s.host.journal.Keys <= want
    case Recording(want, todo, ip, _) => todo <= want && ip in want && s.host.journal.Keys <= want
    case Adding(want, todo, ip, gw) =>
      todo <= want && ip in want && s.host.journal.Keys <= want && s.host.Journaled(Pin(ip, gw))
    case Undoing(want, todo, ip) => todo <= want && ip in want && s.host.journal.Keys <= want
    case _ => true
  }

  /** Holds between any two operations: what is ours is journaled, or the kernel refused to delete it. */
  ghost predicate CrashSafe(s: State) {
    && (forall p <- s.host.ours :: s.host.Journaled(p) || p in s.refused)
    && s.host.ours !! s.host.foreign
    && (forall p <- s.host.ours :: Some(p.ip) == InHand(s.pc) ==> p in s.refused)
    && OnlyWanted(s)
  }

  /** Until an entry outlives its route, the journal is exact but for the host in hand, and nothing foreign is lost. */
  ghost predicate Clean(s: State) {
    !s.tainted ==>
      && s.lost == {}
      && forall ip <- s.host.journal :: Some(ip) == InHand(s.pc) || Pin(ip, s.host.journal[ip]) in s.host.ours
  }

  lemma StepKeepsSafe(s: State, e: Event)
    requires CrashSafe(s) && Enabled(s, e)
    ensures CrashSafe(Step(s, e))
  {
  }

  lemma StepKeepsClean(s: State, e: Event)
    requires CrashSafe(s) && Clean(s) && Enabled(s, e)
    ensures Clean(Step(s, e))
  {
  }

  // ---------- whole runs ----------

  ghost predicate Follows(s: State, t: State) {
    exists e: Event :: Enabled(s, e) && t == Step(s, e)
  }

  ghost predicate StepAt(path: seq<State>, k: nat)
    requires 0 < k < |path|
  {
    Follows(path[k - 1], path[k])
  }

  ghost predicate IsPath(path: seq<State>) {
    |path| > 0 && forall k {:trigger StepAt(path, k)} :: 0 < k < |path| ==> StepAt(path, k)
  }

  lemma Extends(path: seq<State>, t: State)
    requires IsPath(path) && Follows(path[|path| - 1], t)
    ensures IsPath(path + [t])
  {
    var more := path + [t];
    forall k | 0 < k < |more|
      ensures StepAt(more, k)
    {
      if k < |path| { assert StepAt(path, k); }
    }
  }

  predicate Untouched(s: State) {
    s.pc.Idle? && s.host.journal == map[] && s.host.ours == {} && s.refused == {} && s.lost == {} && !s.tainted
  }

  ghost predicate IsRun(run: seq<State>) {
    IsPath(run) && Untouched(run[0])
  }

  ghost predicate Sound(s: State) {
    CrashSafe(s) && Clean(s)
  }

  lemma {:induction false} PathKeeps(path: seq<State>, k: nat)
    requires IsPath(path) && Sound(path[0]) && k < |path|
    ensures Sound(path[k])
  {
    if k > 0 {
      PathKeeps(path, k - 1);
      assert StepAt(path, k);
      var e: Event :| Enabled(path[k - 1], e) && path[k] == Step(path[k - 1], e);
      StepKeepsSafe(path[k - 1], e);
      StepKeepsClean(path[k - 1], e);
    }
  }

  /**
   Over any run of reconciles, gateway moves, refused calls, crashes and restarts, at every
   instant: each route we created and have not deleted is journaled with its gateway, or the
   kernel refused to delete it. As long as no crash struck an exposed entry and no route of ours
   vanished, the journal between reconciles lists only what we own and no foreign route was lost.
   */
  lemma PinsAreNeverOrphaned(run: seq<State>, k: nat)
    requires IsRun(run) && k < |run|
    ensures forall p <- run[k].host.ours :: run[k].host.Journaled(p) || p in run[k].refused
    ensures run[k].refused == {} ==> run[k].host.Safe()
    ensures run[k].pc.Idle? && !run[k].tainted ==> run[k].host.Exact()
    ensures !run[k].tainted ==> run[k].lost == {}
  {
    PathKeeps(run, k);
  }

  /** The end of a reconcile that wanted nothing: of ours only what the kernel refused to delete is left. */
  lemma EmptyWantLeavesNothing(run: seq<State>, k: nat)
    requires IsRun(run) && k < |run| && run[k].pc == Visiting({}, {})
    ensures run[k].host.journal == map[] && run[k].host.ours <= run[k].refused
  {
    PathKeeps(run, k);
    NothingWanted(run[k]);
  }

  lemma NothingWanted(s: State)
    requires CrashSafe(s) && s.pc.Visiting?
    ensures s.host.journal.Keys <= s.pc.want
    ensures s.pc.want == {} ==> s.host.journal == map[] && s.host.ours <= s.refused
  {
    if s.pc.want == {} {
      assert s.host.journal.Keys == {};
      assert forall p <- s.host.ours :: s.host.Journaled(p) || p in s.refused;
    }
  }

  // ---------- what a refused deletion and an exposed crash can do ----------

  function Start(foreign: set<Pin>): State {
    State(Host(map[], {}, foreign), Idle, {}, {}, false)
  }

  /** A route of ours with no entry: its deletion was refused and the entry forgotten all the same. */
  lemma RefusedDeletionOrphans() returns (run: seq<State>)
    ensures IsRun(run) && !run[|run| - 1].tainted
    ensures run[|run| - 1].pc.Idle? && run[|run| - 1].host.journal == map[] && run[|run| - 1].host.ours == {Pin(1, 9)}
  {
    var pinned := RunPins();
    var s := pinned[|pinned| - 1];
    var s1 := Step(s, Begin({}));
    run := Extended(pinned, Begin({}));
    var s2 := Step(s1, DeleteStale(1, false));
    run := Extended(run, DeleteStale(1, false));
    var s3 := Step(s2, ForgetStale);
    run := Extended(run, ForgetStale);
    assert s3.host.journal == map[];
    var s4 := Step(s3, SweepDone);
    run := Extended(run, SweepDone);
    run := Extended(run, Done);
  }

  /** Host 1 is pinned through gateway 9 and nothing else happened. */
  lemma RunPins() returns (run: seq<State>)
    ensures IsRun(run)
    ensures run[|run| - 1] == State(Host(map[1 := 9], {Pin(1, 9)}, {}), Idle, {}, {}, false)
  {
    run := [Start({})];
    run := Extended(run, Begin({1}));
    run := Extended(run, SweepDone);
    run := Extended(run, Visit(1, Some(9), true));
    run := Extended(run, RecordPin);
    run := Extended(run, AddPin(true));
    run := Extended(run, Done);
  }

  lemma Extended(run: seq<State>, e: Event) returns (more: seq<State>)
    requires IsRun(run) && Enabled(run[|run| - 1], e)
    ensures IsRun(more) && more == run + [Step(run[|run| - 1], e)]
  {
    more := run + [Step(run[|run| - 1], e)];
    Extends(run, Step(run[|run| - 1], e));
  }

  /** After a crash the journal still lists only what we own exactly if the crash struck no exposed entry. */
  lemma CrashKeepsExactIff(s: State)
    requires CrashSafe(s) && Clean(s) && !s.tainted
    ensures Step(s, Crash).host.Exact() <==> !Exposed(s)
    ensures Step(s, Crash).tainted <==> Exposed(s)
  {
    var h := s.host;
    if Exposed(s) {
      assert InHand(s.pc).value in h.journal;
    }
  }

  /** From any idle state whose journal lists something we do not own, a foreign route can be lost. */
  lemma InexactCanCost(s: State) returns (path: seq<State>, p: Pin)
    requires CrashSafe(s) && s.pc.Idle? && !s.host.Exact()
    ensures IsPath(path) && path[0] == s && p in path[|path| - 1].lost && p !in s.host.ours
    ensures |path| == 4 && path[1].host.foreign == s.host.foreign + {p}
  {
    var ip :| ip in s.host.journal && Pin(ip, s.host.journal[ip]) !in s.host.ours;
    p := Pin(ip, s.host.journal[ip]);
    var s1 := Step(s, Others(s.host.foreign + {p}));
    var s2 := Step(s1, Begin({}));
    var s3 := Step(s2, DeleteStale(ip, true));
    Extends([s], s1);
    Extends([s, s1], s2);
    Extends([s, s1, s2], s3);
    path := [s, s1, s2, s3];
    assert [s] + [s1] == [s, s1] && [s, s1] + [s2] == [s, s1, s2] && [s, s1, s2] + [s3] == path;
  }

  /**
   A concrete loss: the process dies between journaling a pin and finding out that the route is
   somebody else's, and the next one deletes that route.
   */
  lemma CrashCanCostAForeignRoute() returns (run: seq<State>)
    ensures IsRun(run) && run[0] == Start({Pin(1, 9)}) && run[|run| - 1].lost == {Pin(1, 9)}
  {
    run := [Start({Pin(1, 9)})];
    run := Extended(run, Begin({1}));
    run := Extended(run, SweepDone);
    run := Extended(run, Visit(1, Some(9), true));
    run := Extended(run, RecordPin);
    run := Extended(run, Crash);
    run := Extended(run, Begin({}));
    run := Extended(run, DeleteStale(1, true));
  }

  // ---------- the loops of a reconcile, each operation one step of the machine ----------

  // The answers of the world during one reconcile: the default gateway per host, the hosts whose
  // route can be added, and the routes the kernel will not delete.
  datatype Answers = Answers(gateway: map<Addr, Gateway>, addable: set<Addr>, stuck: set<Pin>)

  /** A host that can be counted on: it has a gateway, and its route can be added or is journaled through it. */
  predicate Fine(h: Host, ip: Addr, a: Answers) {
    ip in a.gateway && (ip in a.addable || h.Journaled(Pin(ip, a.gateway[ip])))
  }

  lemma NoneOver<T>(kept: set<T>, want: set<T>)
    requires kept - want == {}
    ensures kept <= want
  {
    forall x | x in kept
      ensures x in want
    {
      assert x !in kept - want;
    }
  }

  class Pinner {
    var host: Host
    /** Every state since the start, one per operation. */
    ghost var path: seq<State>

    ghost function Now(): State
      requires |path| > 0
      reads this
    {
      path[|path| - 1]
    }

    ghost predicate Valid()
      reads this
    {
      IsPath(path) && Sound(path[0]) && Now().host == host
    }

    constructor (h: Host)
      requires h.journal == map[] && h.ours == {}
      ensures host == h && Valid() && path == [Start(h.foreign)] && Now().pc.Idle?
    {
      host := h;
      path := [Start(h.foreign)];
    }

    /** The machine takes the step the program just took. */
    ghost method Took(e: Event)
      requires IsPath(path) && Sound(path[0]) && Enabled(Now(), e) && host == Step(Now(), e).host
      modifies `path
      ensures Valid() && path == old(path) + [Step(old(Now()), e)] && Now() == Step(old(Now()), e)
    {
      Extends(path, Step(Now(), e));
      path := path + [Step(Now(), e)];
    }

    /** One unwanted pin: delete, then forget. */
    method Drop(ip: Addr, a: Answers)
      requires Valid() && Now().pc.Sweeping? && ip in host.journal && ip !in Now().pc.want
      modifies this
      ensures Valid() && old(path) <= path && Now().pc == old(Now()).pc && host.journal == old(host).journal - {ip}
      ensures Now().tainted == old(Now()).tainted && Now().refused <= old(Now()).refused + a.stuck
    {
      var p := Pin(ip, host.journal[ip]);
      host := host.Delete(ip, p.gw, p !in a.stuck);
      Took(DeleteStale(ip, p !in a.stuck));
      host := host.Forget(ip);
      Took(ForgetStale);
    }

    /** Drop every pin that is not wanted, kernel before journal. */
    method Sweep(want: set<Addr>, a: Answers)
      requires Valid() && Now().pc == Sweeping(want)
      modifies this
      ensures Valid() && old(path) <= path && Now().pc == Visiting(want, want)
      ensures Now().tainted == old(Now()).tainted && Now().refused <= old(Now()).refused + a.stuck
      ensures forall ip <- want :: Fine(host, ip, a) <==> Fine(old(host), ip, a)
    {
      var stale := host.journal.Keys - want;
      while stale != {}
        invariant Valid() && old(path) <= path && Now().pc == Sweeping(want) && stale == host.journal.Keys - want
        invariant Now().tainted == old(Now()).tainted && Now().refused <= old(Now()).refused + a.stuck
        invariant forall ip <- want :: Fine(host, ip, a) <==> Fine(old(host), ip, a)
        decreases |stale|
      {
        var ip := Pick(stale);
        Drop(ip, a);
        stale := stale - {ip};
      }
      NoneOver(host.journal.Keys, want);
      Took(SweepDone);
    }

    /** The host is journaled through the current gateway, or has no entry and a route through it anyway. */
    ghost predicate Reaches(ip: Addr, a: Answers)
      reads this
    {
      && ip in a.gateway
      && var p := Pin(ip, a.gateway[ip]);
      && (ip in host.journal ==> host.Journaled(p))
      && (ip !in host.journal ==> p in host.ours + host.foreign)
    }

    /** Nothing about any other host changed. */
    ghost predicate SameBut(was: Host, ip: Addr)
      reads this
    {
      && (forall k: Addr :: k != ip ==> (k in host.journal <==> k in was.journal))
      && (forall k: Addr :: k != ip && k in host.journal ==> host.journal[k] == was.journal[k])
      && (forall p: Pin :: p.ip != ip ==> (p in host.ours + host.foreign <==> p in was.ours + was.foreign))
    }

    /** Pin one wanted host to the current default gateway; true when it is reachable off the tunnel. */
    method PinOne(ip: Addr, a: Answers) returns (ok: bool)
      requires Valid() && Now().pc.Visiting? && ip in Now().pc.todo
      modifies this
      ensures Valid() && old(path) <= path && Now().pc == Visiting(old(Now()).pc.want, old(Now()).pc.todo - {ip})
      ensures Now().tainted == old(Now()).tainted && Now().refused <= old(Now()).refused + a.stuck
      ensures SameBut(old(host), ip)
      ensures (ok <==> Fine(old(host), ip, a)) && (ok ==> Reaches(ip, a))
    {
      if ip !in a.gateway {
        Took(Visit(ip, None, true));
        return false;
      }
      var gw := a.gateway[ip];
      if ip in host.journal && host.journal[ip] == gw {
        Took(Visit(ip, Some(gw), true));
        return true;
      }
      if ip in host.journal {
        Unpin(ip, gw, a);
      } else {
        Took(Visit(ip, Some(gw), true));
      }
      ok := Install(ip, gw, ip in a.addable);
    }

    /** The default gateway moved away from under a pin: delete, then forget. */
    method Unpin(ip: Addr, gw: Gateway, a: Answers)
      requires Valid() && Now().pc.Visiting? && ip in Now().pc.todo && ip in host.journal && host.journal[ip] != gw
      modifies this
      ensures Valid() && old(path) <= path && ip !in host.journal && SameBut(old(host), ip)
      ensures Now().pc == Recording(old(Now()).pc.want, old(Now()).pc.todo - {ip}, ip, gw)
      ensures Now().tainted == old(Now()).tainted && Now().refused <= old(Now()).refused + a.stuck
    {
      var p := Pin(ip, host.journal[ip]);
      host := host.Delete(ip, p.gw, p !in a.stuck);
      Took(Visit(ip, Some(gw), p !in a.stuck));
      host := host.Forget(ip);
      Took(ForgetMoved);
    }

    /** Journal, then add; an entry that turned out not to be ours is forgotten again. */
    method Install(ip: Addr, gw: Gateway, addable: bool) returns (ok: bool)
      requires Valid() && Now().pc.Recording? && Now().pc.ip == ip && Now().pc.gw == gw && ip !in host.journal
      modifies this
      ensures Valid() && old(path) <= path && Now().pc == Visiting(old(Now()).pc.want, old(Now()).pc.todo)
      ensures Now().tainted == old(Now()).tainted && Now().refused == old(Now()).refused
      ensures SameBut(old(host), ip) && ok == addable
      ensures ok ==> if ip in host.journal then host.journal[ip] == gw else Pin(ip, gw) in host.ours + host.foreign
    {
      host := host.Record(ip, gw);
      Took(RecordPin);
      var (h, o) := host.Add(ip, gw, addable);
      host := h;
      Took(AddPin(addable));
      if o != Created {
        host := host.Forget(ip);
        Took(Undo);
      }
      ok := o != Failed;
    }

    /** Visit every wanted host once, whatever becomes of it. */
    method VisitAll(want: set<Addr>, a: Answers) returns (ok: set<Addr>)
      requires Valid() && Now().pc == Visiting(want, want)
      modifies this
      ensures Valid() && old(path) <= path && Now().pc == Visiting(want, {})
      ensures Now().tainted == old(Now()).tainted && Now().refused <= old(Now()).refused + a.stuck
      ensures ok <= want && forall ip <- want :: ip in ok <==> Fine(old(host), ip, a)
      ensures forall ip <- ok :: Reaches(ip, a)
    {
      ok := {};
      var todo := want;
      while todo != {}
        invariant Valid() && old(path) <= path && Now().pc == Visiting(want, todo) && todo <= want
        invariant Now().tainted == old(Now()).tainted && Now().refused <= old(Now()).refused + a.stuck
        invariant ok <= want - todo && forall ip <- want - todo :: ip in ok <==> Fine(old(host), ip, a)
        invariant forall ip <- todo :: Fine(host, ip, a) <==> Fine(old(host), ip, a)
        invariant forall ip <- ok :: Reaches(ip, a)
        decreases |todo|
      {
        var ip := Pick(todo);
        var fine := PinOne(ip, a);
        if fine {
          ok := ok + {ip};
        }
        todo := todo - {ip};
      }
    }

    /**
     Bring the pins in line with `want`; the result is what may be counted as reachable off the
     tunnel. Every operation is one step of the machine, so the program may die between any two.
     */
    method ReconcilePins(want: set<Addr>, a: Answers) returns (ok: set<Addr>)
      requires Valid() && Now().pc.Idle?
      modifies this
      ensures Valid() && old(path) <= path && Now().pc.Idle? && host.journal.Keys <= want
      ensures Now().tainted == old(Now()).tainted && Now().refused <= old(Now()).refused + a.stuck
      ensures want == {} ==> host.ours <= Now().refused
      ensures ok <= want && forall ip <- want :: ip in ok <==> Fine(old(host), ip, a)
      ensures forall ip <- ok :: Reaches(ip, a)
    {
      Took(Begin(want));
      Sweep(want, a);
      ok := VisitAll(want, a);
      PathKeeps(path, |path| - 1);
      NothingWanted(Now());
      Took(Done);
    }
  }
}

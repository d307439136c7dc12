/**
 The replicated network view: snapshots, the delta between two of them, and applying a delta.
 */
module Snapshots {
  import opened Base
  import opened Cidrs
  import L = Lists

  type NodeId = nat

  datatype Member = Member(
    id: NodeId, name: string, relay: bool, prefixes: seq<Prefix>, pubkey: string, online: bool, loginGen: nat)

  datatype Attachment = Attachment(node: NodeId, relay: NodeId)

  datatype RelayEndpoint = RelayEndpoint(id: NodeId, name: string, addr: string, certFp: string)

  datatype Mtu = Mtu(mtu: nat, limitedBy: string)

  // Key ids stand for their spellings, in the order of the spellings.
  datatype KeyInfo = KeyInfo(kid: nat, key: string, state: string)

  datatype Snapshot = Snapshot(
    gen: nat,
    members: seq<Member>,
    attachments: seq<Attachment>,
    relays: seq<RelayEndpoint>,
    mtu: Mtu,
    keys: seq<KeyInfo>,
    reserved: seq<Prefix>)

  datatype Delta = Delta(
    baseGen: nat,
    gen: nat,
    membersChanged: seq<Member>,
    membersRemoved: seq<int>,
    attachmentsChanged: seq<Attachment>,
    attachmentsRemoved: seq<int>,
    relays: Option<seq<RelayEndpoint>>,
    mtu: Option<Mtu>,
    keys: Option<seq<KeyInfo>>,
    reserved: Option<seq<Prefix>>)

  datatype GenerationGap = GenerationGap(base: nat, have: nat)

  /** What a holder has before it ever heard from a coordinator. */
  const EMPTY := Snapshot(0, [], [], [], Mtu(0, ""), [], [])

  function ByMember(m: Member): int { m.id }

  function ByNode(a: Attachment): int { a.node }

  function ByRelay(r: RelayEndpoint): int { r.id }

  function ByKid(k: KeyInfo): int { k.kid }

  /** The prefix order as one number: family, then address, then length. */
  function ByPrefix(p: Prefix): int {
    (if p.v6 then Pow2(Width(p.v6)) + p.addr else p.addr) * 256 + p.len
  }

  lemma PrefixOrder(p: Prefix, q: Prefix)
    ensures ByPrefix(p) < ByPrefix(q) <==>
            || (!p.v6 && q.v6)
            || (p.v6 == q.v6 && p.addr < q.addr)
            || (p.v6 == q.v6 && p.addr == q.addr && p.len < q.len)
    ensures ByPrefix(p) == ByPrefix(q) ==> p == q
  {
    if !p.v6 && q.v6 {
      Pow2Grows(Width(p.v6), Width(q.v6));
    } else if p.v6 && !q.v6 {
      Pow2Grows(Width(q.v6), Width(p.v6));
    }
  }

  /** Every list in canonical order, the last of two entries with one key winning. */
  function Normalized(s: Snapshot): Snapshot {
    s.(members := L.Canonical(s.members, ByMember),
       attachments := L.Canonical(s.attachments, ByNode),
       relays := L.Canonical(s.relays, ByRelay),
       keys := L.Canonical(s.keys, ByKid),
       reserved := L.Canonical(s.reserved, ByPrefix))
  }

  predicate IsNormal(s: Snapshot) {
    s == Normalized(s)
  }

  /** What a view means, whatever order and duplicates its lists have. */
  datatype Meaning = Meaning(
    gen: nat,
    members: map<int, Member>,
    attachments: map<int, Attachment>,
    relays: map<int, RelayEndpoint>,
    mtu: Mtu,
    keys: map<int, KeyInfo>,
    reserved: set<Prefix>)

  function Elements(v: seq<Prefix>): set<Prefix> {
    set p | p in v
  }

  function MeaningOf(s: Snapshot): Meaning {
    Meaning(s.gen, L.LastWins(s.members, ByMember), L.LastWins(s.attachments, ByNode),
            L.LastWins(s.relays, ByRelay), s.mtu, L.LastWins(s.keys, ByKid), Elements(s.reserved))
  }

  lemma ReservedMeaning(v: seq<Prefix>)
    ensures forall p: Prefix :: p in v <==>
            ByPrefix(p) in L.LastWins(v, ByPrefix) && L.LastWins(v, ByPrefix)[ByPrefix(p)] == p
  {
    assert L.Determined(v, ByPrefix) by {
      forall i, j | 0 <= i < |v| && 0 <= j < |v| && ByPrefix(v[i]) == ByPrefix(v[j])
        ensures v[i] == v[j]
      {
        PrefixOrder(v[i], v[j]);
      }
    }
    L.LastWinsDetermined(v, ByPrefix);
    forall p: Prefix | ByPrefix(p) in L.LastWins(v, ByPrefix) && L.LastWins(v, ByPrefix)[ByPrefix(p)] == p
      ensures p in v
    {
      var i :| 0 <= i < |v| && ByPrefix(v[i]) == ByPrefix(p);
      PrefixOrder(v[i], p);
    }
  }

  /** Two views normalise to the same thing exactly when they mean the same; once is enough. */
  lemma NormalForm(s: Snapshot, t: Snapshot)
    ensures Normalized(s) == Normalized(t) <==> MeaningOf(s) == MeaningOf(t)
    ensures Normalized(Normalized(s)) == Normalized(s)
    ensures MeaningOf(Normalized(s)) == MeaningOf(s)
  {
    L.CanonicalIffSameMeaning(s.members, t.members, ByMember);
    L.CanonicalIffSameMeaning(s.attachments, t.attachments, ByNode);
    L.CanonicalIffSameMeaning(s.relays, t.relays, ByRelay);
    L.CanonicalIffSameMeaning(s.keys, t.keys, ByKid);
    L.CanonicalIffSameMeaning(s.reserved, t.reserved, ByPrefix);
    SameReserved(s.reserved, t.reserved);
    SameReserved(s.reserved, L.Canonical(s.reserved, ByPrefix));
  }

  lemma SameReserved(v: seq<Prefix>, w: seq<Prefix>)
    ensures L.LastWins(v, ByPrefix) == L.LastWins(w, ByPrefix) <==> Elements(v) == Elements(w)
  {
    var m, n := L.LastWins(v, ByPrefix), L.LastWins(w, ByPrefix);
    ReservedMeaning(v);
    ReservedMeaning(w);
    if m == n {
      assert forall p: Prefix :: p in v <==> p in w;
    }
    if Elements(v) == Elements(w) {
      forall k
        ensures k in m <==> k in n
        ensures k in m && k in n ==> m[k] == n[k]
      {
        if k in m { SubReserved(v, w, k); }
        if k in n { SubReserved(w, v, k); }
      }
    }
  }

  lemma SubReserved(v: seq<Prefix>, w: seq<Prefix>, k: int)
    requires Elements(v) <= Elements(w) && k in L.LastWins(v, ByPrefix)
    ensures k in L.LastWins(w, ByPrefix) && L.LastWins(w, ByPrefix)[k] == L.LastWins(v, ByPrefix)[k]
  {
    ReservedMeaning(v);
    ReservedMeaning(w);
    L.LastWinsKeyed(v, ByPrefix);
    var p: Prefix := L.LastWins(v, ByPrefix)[k];
    assert ByPrefix(p) == k;
    assert p in v;
    assert p in Elements(v) && p in Elements(w);
  }

  // ---------- diff and apply ----------

  function Replaced<T(==)>(was: T, now: T): Option<T> {
    if was != now then Some(now) else None
  }

  function Diff(s: Snapshot, newer: Snapshot): Delta {
    var sm, nm := L.LastWins(s.members, ByMember), L.LastWins(newer.members, ByMember);
    var sa, na := L.LastWins(s.attachments, ByNode), L.LastWins(newer.attachments, ByNode);
    Delta(s.gen, newer.gen,
          L.Changed(sm, nm), L.Removed(sm, nm),
          L.Changed(sa, na), L.Removed(sa, na),
          Replaced(s.relays, newer.relays),
          Replaced(s.mtu, newer.mtu),
          Replaced(s.keys, newer.keys),
          Replaced(s.reserved, newer.reserved))
  }

  function Or<T>(o: Option<T>, otherwise: T): T {
    if o.Some? then o.value else otherwise
  }

  function Merged(s: Snapshot, d: Delta): Snapshot {
    Snapshot(
      d.gen,
      L.Values(L.Patched(L.LastWins(s.members, ByMember), d.membersRemoved, d.membersChanged, ByMember)),
      L.Values(L.Patched(L.LastWins(s.attachments, ByNode), d.attachmentsRemoved, d.attachmentsChanged, ByNode)),
      Or(d.relays, s.relays), Or(d.mtu, s.mtu), Or(d.keys, s.keys), Or(d.reserved, s.reserved))
  }

  /** Nothing changes if the copy is already as new; a delta on another base is a gap. */
  function Applied(s: Snapshot, d: Delta): Result<Snapshot, GenerationGap> {
    if d.gen <= s.gen then Ok(s)
    else if d.baseGen != s.gen then Err(GenerationGap(d.baseGen, s.gen))
    else Ok(Normalized(Merged(s, d)))
  }

  /** The lists and scalars a delta replaces whole. */
  lemma ReplacedLists<T>(was: seq<T>, now: seq<T>, key: T -> int)
    ensures L.Canonical(Or(Replaced(was, now), L.Canonical(was, key)), key) == L.Canonical(now, key)
  {
    L.CanonicalIffSameMeaning(was, now, key);
  }

  lemma PatchedList<T>(was: seq<T>, now: seq<T>, key: T -> int)
    ensures var m, n := L.LastWins(was, key), L.LastWins(now, key);
            var p := L.Values(L.Patched(L.LastWins(L.Canonical(was, key), key), L.Removed(m, n), L.Changed(m, n), key));
            L.Canonical(p, key) == L.Canonical(now, key)
  {
    var m, n := L.LastWins(was, key), L.LastWins(now, key);
    L.CanonicalIffSameMeaning(was, now, key);
    L.CanonicalIffSameMeaning(now, was, key);
    L.LastWinsKeyed(now, key);
    L.DifferencePatches(m, n, key);
  }

  /** Applying the difference of two views to the first gives the second, duplicates and all. */
  lemma DiffThenApply(a: Snapshot, b: Snapshot)
    requires a.gen < b.gen
    ensures Applied(Normalized(a), Diff(a, b)) == Ok(Normalized(b))
  {
    PatchedList(a.members, b.members, ByMember);
    PatchedList(a.attachments, b.attachments, ByNode);
    ReplacedLists(a.relays, b.relays, ByRelay);
    ReplacedLists(a.keys, b.keys, ByKid);
    ReplacedLists(a.reserved, b.reserved, ByPrefix);
  }

  /** A delta over normalised views takes exactly the one it was taken from to the other. */
  lemma DeltaMoves(a: Snapshot, b: Snapshot)
    requires IsNormal(a) && IsNormal(b) && a.gen < b.gen
    ensures Applied(a, Diff(a, b)) == Ok(b)
  {
    DiffThenApply(a, b);
  }

  // ---------- a holder's copy ----------

  /** A received snapshot replaces the copy unless it is older. */
  function Installed(have: Snapshot, s: Snapshot): Snapshot {
    if s.gen < have.gen then have else Normalized(s)
  }

  /** A copy takes on the meaning of any snapshot as new as itself, even of another one at its own generation. */
  lemma SnapshotRepairs(have: Snapshot, s: Snapshot)
    ensures if s.gen < have.gen then Installed(have, s) == have
            else MeaningOf(Installed(have, s)) == MeaningOf(s) && IsNormal(Installed(have, s))
  {
    NormalForm(s, s);
  }

  /** A delta names a member exactly if its entry differs or is gone, and replaces a list only if it differs. */
  lemma DeltaIsMinimal(s: Snapshot, t: Snapshot, id: nat)
    ensures var d, a, b := Diff(s, t), MeaningOf(s).members, MeaningOf(t).members;
            && (id in d.membersRemoved <==> id in a && id !in b)
            && ((exists m <- d.membersChanged :: m.id == id) <==> id in b && (id !in a || a[id] != b[id]))
            && (d.relays.None? <==> s.relays == t.relays) && (d.mtu.None? <==> s.mtu == t.mtu)
            && (d.keys.None? <==> s.keys == t.keys) && (d.reserved.None? <==> s.reserved == t.reserved)
  {
    var a, b := MeaningOf(s).members, MeaningOf(t).members;
    L.LastWinsKeyed(t.members, ByMember);
    L.ChangedAre(a, b, id, ByMember);
  }

  class View {
    var gen: nat
    var members: seq<Member>
    var attachments: seq<Attachment>
    var relays: seq<RelayEndpoint>
    var mtu: Mtu
    var keys: seq<KeyInfo>
    var reserved: seq<Prefix>

    function Copy(): Snapshot
      reads this
    {
      Snapshot(gen, members, attachments, relays, mtu, keys, reserved)
    }

    constructor ()
      ensures Copy() == EMPTY
    {
      gen, members, attachments, relays := 0, [], [], [];
      mtu, keys, reserved := Mtu(0, ""), [], [];
    }

    method Normalize()
      modifies this
      ensures Copy() == Normalized(old(Copy()))
    {
      members := L.KeepLastSorted(members, ByMember);
      attachments := L.KeepLastSorted(attachments, ByNode);
      relays := L.KeepLastSorted(relays, ByRelay);
      keys := L.KeepLastSorted(keys, ByKid);
      forall i, j | 0 <= i < |reserved| && 0 <= j < |reserved| && ByPrefix(reserved[i]) == ByPrefix(reserved[j])
        ensures reserved[i] == reserved[j]
      {
        PrefixOrder(reserved[i], reserved[j]);
      }
      reserved := L.SortedDistinct(reserved, ByPrefix);
    }

    method Apply(d: Delta) returns (r: Result<(), GenerationGap>)
      modifies this
      ensures r.Ok? <==> Applied(old(Copy()), d).Ok?
      ensures r.Ok? ==> Applied(old(Copy()), d) == Ok(Copy())
      ensures r.Err? ==> Copy() == old(Copy()) && Applied(old(Copy()), d) == Err(r.error)
    {
      if d.gen <= gen {
        return Ok(());
      }
      if d.baseGen != gen {
        return Err(GenerationGap(d.baseGen, gen));
      }
      Merge(d);
      Normalize();
      r := Ok(());
    }

    method Merge(d: Delta)
      modifies this
      ensures Copy() == Merged(old(Copy()), d)
    {
      members := L.Patch(members, d.membersRemoved, d.membersChanged, ByMember);
      attachments := L.Patch(attachments, d.attachmentsRemoved, d.attachmentsChanged, ByNode);
      if d.relays.Some? {
        relays := d.relays.value;
      }
      if d.mtu.Some? {
        mtu := d.mtu.value;
      }
      if d.keys.Some? {
        keys := d.keys.value;
      }
      if d.reserved.Some? {
        reserved := d.reserved.value;
      }
      gen := d.gen;
    }

    method Install(s: Snapshot) returns (r: Result<(), nat>)
      modifies this
      ensures Copy() == Installed(old(Copy()), s)
      ensures r == if s.gen < old(gen) then Err(old(gen)) else Ok(())
    {
      if s.gen < gen {
        return Err(gen);
      }
      gen, members, attachments, relays := s.gen, s.members, s.attachments, s.relays;
      mtu, keys, reserved := s.mtu, s.keys, s.reserved;
      Normalize();
      r := Ok(());
    }
  }
}

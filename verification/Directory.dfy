/**
 The coordinator's directory: the published view, its generation, and the ring of recent deltas
 that lets a holder of an older generation catch up.
 */
module Directories {
  import opened Base
  import opened Snapshots

  const RING := 512
  const MIN_TUNNEL_MTU := 1280

  datatype Dir = Dir(gen: nat, published: Snapshot, ring: seq<Delta>)

  function FreshDir(gen: nat): Dir {
    Dir(gen, EMPTY.(gen := gen), [])
  }

  function Max(a: nat, b: nat): nat {
    if a < b then b else a
  }

  function Trimmed(ring: seq<Delta>): seq<Delta> {
    if |ring| > RING then ring[|ring| - RING..] else ring
  }

  /** The view as it would be published now, before it is known to differ. */
  function Candidate(dir: Dir, content: Snapshot): Snapshot {
    Normalized(content.(gen := dir.gen))
  }

  /** The generation a change takes: later than the current one, and the time if that is later still. */
  function NextView(dir: Dir, content: Snapshot, nowMs: nat): Snapshot {
    Candidate(dir, content).(gen := Max(dir.gen + 1, nowMs))
  }

  /** Recompute: nothing if the content is what was published, else one new generation. */
  function Recomputed(dir: Dir, content: Snapshot, nowMs: nat): (Dir, Option<Delta>) {
    if Candidate(dir, content) == dir.published then (dir, None) else
    var next := NextView(dir, content, nowMs);
    var d := Diff(dir.published, next);
    (Dir(next.gen, next, Trimmed(dir.ring + [d])), Some(d))
  }

  /** Index of the first delta based on `have`, or the ring's length. */
  function Position(ring: seq<Delta>, have: nat): (i: nat)
    ensures i <= |ring|
    ensures i < |ring| ==> ring[i].baseGen == have
    ensures forall j :: 0 <= j < i ==> ring[j].baseGen != have
  {
    if ring == [] || ring[0].baseGen == have then 0 else 1 + Position(ring[1..], have)
  }

  /** Does the chain lead from `have` to `gen` without a gap? */
  predicate Contiguous(chain: seq<Delta>, have: nat, gen: nat) {
    if chain == [] then have == gen
    else chain[0].baseGen == have && Contiguous(chain[1..], chain[0].gen, gen)
  }

  function DeltasSince(dir: Dir, have: nat): Option<seq<Delta>> {
    if have == dir.gen then Some([]) else
    var start := Position(dir.ring, have);
    if start == |dir.ring| then None
    else if Contiguous(dir.ring[start..], have, dir.gen) then Some(dir.ring[start..])
    else None
  }

  /** Every delta of the chain in turn. */
  function Folded(s: Snapshot, chain: seq<Delta>): Result<Snapshot, GenerationGap>
    decreases |chain|
  {
    if chain == [] then Ok(s) else
    match Applied(s, chain[0])
    case Ok(t) => Folded(t, chain[1..])
    case Err(e) => Err(e)
  }

  // ---------- the ring is the recent past ----------

  /** The deltas lead through the views of `past` one by one, each newer than the last. */
  ghost predicate Leads(ring: seq<Delta>, past: seq<Snapshot>) {
    && |past| == |ring| + 1
    && (forall i {:trigger IsNormal(past[i])} :: 0 <= i < |past| ==> IsNormal(past[i]))
    && (forall i, j :: 0 <= i < j < |past| ==> past[i].gen < past[j].gen)
    && (forall i {:trigger ring[i]} :: 0 <= i < |ring| ==> ring[i] == Diff(past[i], past[i + 1]))
  }

  /** `past` are the views the ring leads through, oldest first, the published one last. */
  ghost predicate RingOk(dir: Dir, past: seq<Snapshot>) {
    && Leads(dir.ring, past) && |dir.ring| <= RING
    && past[|dir.ring|] == dir.published && dir.published.gen == dir.gen
  }

  function RecentPast(past: seq<Snapshot>): seq<Snapshot> {
    if |past| > RING + 1 then past[|past| - RING - 1..] else past
  }

  /** Whatever is published, the ring still leads through the most recent views. */
  lemma RecomputedKeepsRing(dir: Dir, past: seq<Snapshot>, content: Snapshot, nowMs: nat)
    requires RingOk(dir, past) && Recomputed(dir, content, nowMs).1.Some?
    ensures var (after, d) := Recomputed(dir, content, nowMs);
            && RingOk(after, RecentPast(past + [after.published]))
            && after.gen > dir.gen && after.gen >= nowMs
            && d == Some(Diff(dir.published, after.published))
            && after.published == Normalized(content.(gen := after.gen))
  {
    var after := Recomputed(dir, content, nowMs).0;
    NextIsNormal(dir, content, nowMs);
    LeadsFurther(dir.ring, past, after.published);
    LeadsTrimmed(dir.ring + [Diff(dir.published, after.published)], past + [after.published]);
  }

  /** The same meaning, apart from the generation. */
  ghost predicate SameContent(s: Snapshot, t: Snapshot) {
    MeaningOf(s.(gen := 0)) == MeaningOf(t.(gen := 0))
  }

  /**
   Nothing is published, and nothing changes, exactly if the content means what is published; a
   change is published as it is, under the next generation or the time if that is later.
   */
  lemma QuietIffSameContent(dir: Dir, content: Snapshot, nowMs: nat)
    requires IsNormal(dir.published) && dir.published.gen == dir.gen
    ensures Recomputed(dir, content, nowMs) == (dir, None) <==> SameContent(content, dir.published)
    ensures !SameContent(content, dir.published) ==>
              var (after, d) := Recomputed(dir, content, nowMs);
              && d.Some? && SameContent(after.published, content)
              && after.gen == after.published.gen == if nowMs > dir.gen then nowMs else dir.gen + 1
  {
    var c := content.(gen := dir.gen);
    NormalForm(c, dir.published);
    assert Normalized(c) == dir.published <==> MeaningOf(c) == MeaningOf(dir.published);
    NextIsNormal(dir, content, nowMs);
    var next := NextView(dir, content, nowMs);
    NormalForm(content.(gen := next.gen), content);
  }

  lemma NextIsNormal(dir: Dir, content: Snapshot, nowMs: nat)
    ensures var next := NextView(dir, content, nowMs);
            next == Normalized(content.(gen := next.gen)) && IsNormal(next)
  {
    var next := NextView(dir, content, nowMs);
    NormalForm(content.(gen := next.gen), content);
  }

  lemma LeadsFurther(ring: seq<Delta>, past: seq<Snapshot>, next: Snapshot)
    requires Leads(ring, past) && IsNormal(next) && past[|ring|].gen < next.gen
    ensures Leads(ring + [Diff(past[|ring|], next)], past + [next])
  {
    var r, p := ring + [Diff(past[|ring|], next)], past + [next];
    forall i, j | 0 <= i < j < |p|
      ensures p[i].gen < p[j].gen
    {
      if j == |past| && i < |ring| {
        assert past[i].gen < past[|ring|].gen;
      }
    }
    forall i | 0 <= i < |r|
      ensures r[i] == Diff(p[i], p[i + 1])
    {
      if i < |ring| { assert ring[i] == Diff(past[i], past[i + 1]); }
    }
  }

  lemma LeadsTrimmed(ring: seq<Delta>, past: seq<Snapshot>)
    requires Leads(ring, past)
    ensures Leads(Trimmed(ring), RecentPast(past))
  {
    if |ring| > RING {
      var cut := |ring| - RING;
      var r, p := Trimmed(ring), RecentPast(past);
      assert forall i :: 0 <= i < |p| ==> p[i] == past[i + cut];
      forall i | 0 <= i < |r|
        ensures r[i] == Diff(p[i], p[i + 1])
      {
        assert ring[i + cut] == Diff(past[i + cut], past[i + cut + 1]);
      }
    }
  }

  lemma {:induction false} RingIsContiguous(dir: Dir, past: seq<Snapshot>, i: nat)
    requires RingOk(dir, past) && i <= |dir.ring|
    ensures Contiguous(dir.ring[i..], past[i].gen, dir.gen)
    decreases |dir.ring| - i
  {
    if i < |dir.ring| {
      RingIsContiguous(dir, past, i + 1);
      assert dir.ring[i..][1..] == dir.ring[i + 1..];
    }
  }

  lemma {:induction false} ChainFolds(dir: Dir, past: seq<Snapshot>, i: nat)
    requires RingOk(dir, past) && i <= |dir.ring|
    ensures Folded(past[i], dir.ring[i..]) == Ok(dir.published)
    decreases |dir.ring| - i
  {
    if i < |dir.ring| {
      assert past[i].gen < past[i + 1].gen;
      DeltaMoves(past[i], past[i + 1]);
      ChainFolds(dir, past, i + 1);
      assert dir.ring[i..][1..] == dir.ring[i + 1..];
    }
  }

  /**
   Catching up works exactly for the current generation and the bases still in the ring, and
   then the chain takes the view of that generation to the published one.
   */
  lemma CatchUpIsExact(dir: Dir, past: seq<Snapshot>, have: nat)
    requires RingOk(dir, past)
    ensures DeltasSince(dir, have).Some? <==>
            have == dir.gen || exists i :: 0 <= i < |dir.ring| && dir.ring[i].baseGen == have
    ensures DeltasSince(dir, have).Some? <==> exists i :: 0 <= i < |past| && past[i].gen == have
    ensures forall i :: 0 <= i < |past| && past[i].gen == have ==>
                          && DeltasSince(dir, have) == Some(dir.ring[i..])
                          && Folded(past[i], dir.ring[i..]) == Ok(dir.published)
  {
    var start := Position(dir.ring, have);
    forall i | 0 <= i < |past| && past[i].gen == have
      ensures DeltasSince(dir, have) == Some(dir.ring[i..])
      ensures Folded(past[i], dir.ring[i..]) == Ok(dir.published)
    {
      ChainFolds(dir, past, i);
      RingIsContiguous(dir, past, i);
      if i == |dir.ring| {
        assert dir.ring[i..] == [];
      } else {
        assert past[i].gen < past[|dir.ring|].gen;
        assert dir.ring[i].baseGen == have;
        assert start <= i;
        assert dir.ring[start] == Diff(past[start], past[start + 1]);
      }
    }
    if start < |dir.ring| {
      assert dir.ring[start] == Diff(past[start], past[start + 1]);
      assert past[start].gen == have;
    }
    if have == dir.gen {
      assert past[|dir.ring|].gen == have;
    }
  }

  /** Where in the recent past a successful catch-up starts. */
  lemma CatchUpStart(dir: Dir, past: seq<Snapshot>, have: nat) returns (i: nat)
    requires RingOk(dir, past) && DeltasSince(dir, have).Some?
    ensures i <= |dir.ring| && past[i].gen == have && DeltasSince(dir, have) == Some(dir.ring[i..])
  {
    CatchUpIsExact(dir, past, have);
    i :| 0 <= i < |past| && past[i].gen == have;
  }

  class Directory {
    var gen: nat
    var published: Snapshot
    var ring: seq<Delta>

    function State(): Dir
      reads this
    {
      Dir(gen, published, ring)
    }

    constructor (initialGen: nat)
      ensures State() == FreshDir(initialGen)
    {
      gen, published, ring := initialGen, EMPTY.(gen := initialGen), [];
    }

    /** Publish `content` if it differs from what is published. */
    method Recompute(content: Snapshot, nowMs: nat) returns (d: Option<Delta>)
      modifies this
      ensures (State(), d) == Recomputed(old(State()), content, nowMs)
    {
      var next := Candidate(State(), content);
      if next == published {
        return None;
      }
      next := next.(gen := Max(gen + 1, nowMs));
      var delta := Diff(published, next);
      gen := next.gen;
      published := next;
      ring := ring + [delta];
      ghost var whole := ring;
      while |ring| > RING
        invariant |ring| <= |whole| && ring == whole[|whole| - |ring|..]
        invariant |whole| <= RING ==> ring == whole
        invariant |whole| > RING ==> |ring| >= RING
        invariant gen == next.gen && published == next
      {
        ring := ring[1..];
      }
      assert ring == Trimmed(whole);
      d := Some(delta);
    }

    /** The deltas that lead a holder of `have` up to date, as long as none of them was trimmed. */
    method Since(have: nat) returns (r: Option<seq<Delta>>)
      ensures r == DeltasSince(State(), have)
    {
      if have == gen {
        return Some([]);
      }
      var start := Position(ring, have);
      if start == |ring| {
        return None;
      }
      var chain := ring[start..];
      var expected := have;
      var i := 0;
      while i < |chain|
        invariant 0 <= i <= |chain|
        invariant Contiguous(chain, have, gen) <==> Contiguous(chain[i..], expected, gen)
      {
        assert chain[i..][1..] == chain[i + 1..];
        if chain[i].baseGen != expected {
          return None;
        }
        expected := chain[i].gen;
        i := i + 1;
      }
      assert chain[i..] == [];
      r := if expected == gen then Some(chain) else None;
    }
  }
}

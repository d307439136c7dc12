/**
 The receiver's sliding window over explicit counters: the circular bitmap of
 section 2 of RFC 6479, proved to be the plain set of committed counters.
 */
module Replay {

  /** Sliding replay window, in packets. */
  const REPLAY_WINDOW: nat := 2048

  const WORD_BITS: nat := 64
  const WINDOW_WORDS: nat := REPLAY_WINDOW / WORD_BITS

  // ---------- the specification: a set of committed counters ----------

  ghost predicate IsHighest(seen: set<nat>, h: nat) {
    h in seen && forall c <- seen :: c <= h
  }

  /** The reference rule: never committed, and less than a window behind everything committed. */
  predicate Accepts(seen: set<nat>, ctr: nat) {
    ctr !in seen && forall c <- seen :: c < ctr + REPLAY_WINDOW
  }

  // ---------- one machine word ----------

  /** `w & (1 << i) != 0`. */
  predicate TestBit(w: nat, i: nat) {
    if i == 0 then w % 2 == 1 else TestBit(w / 2, i - 1)
  }

  /** `w & !(1 << i) | (b << i)`. */
  function PutBit(w: nat, i: nat, b: bool): (r: nat)
    ensures forall j: nat :: TestBit(r, j) == if j == i then b else TestBit(w, j)
  {
    if i == 0 then
      var r := w - w % 2 + if b then 1 else 0;
      assert r / 2 == w / 2;
      r
    else
      var high := PutBit(w / 2, i - 1, b);
      var r := 2 * high + w % 2;
      assert r / 2 == high && r % 2 == w % 2;
      assert forall j: nat :: TestBit(r, j) == if j == i then b else TestBit(w, j) by {
        forall j: nat
          ensures TestBit(r, j) == if j == i then b else TestBit(w, j)
        {
          if j > 0 {
            assert TestBit(r, j) == TestBit(high, j - 1);
          }
        }
      }
      r
  }

  lemma ZeroWord(j: nat)
    ensures !TestBit(0, j)
  {
  }

  // ---------- slots of the circular bitmap ----------

  /** Two counters less than a window apart share a slot only if they are equal. */
  lemma SlotsDistinct(a: nat, b: nat)
    requires a <= b < a + REPLAY_WINDOW
    ensures a % REPLAY_WINDOW == b % REPLAY_WINDOW ==> a == b
  {
  }

  /** A counter's slot is its word and its bit within the word. */
  lemma SlotSplits(a: nat, b: nat)
    ensures var i, j := a % REPLAY_WINDOW, b % REPLAY_WINDOW;
            i / WORD_BITS == j / WORD_BITS && i % WORD_BITS == j % WORD_BITS ==> i == j
  {
  }

  class ReplayWindow {
    var highest: nat
    var bits: array<nat>
    var seenAny: bool
    /** Every counter committed so far. */
    ghost var seen: set<nat>

    ghost predicate Shape()
      reads `bits
    {
      bits.Length == WINDOW_WORDS
    }

    predicate Bit(ctr: nat)
      requires Shape()
      reads `bits, bits
    {
      var idx := ctr % REPLAY_WINDOW;
      TestBit(bits[idx / WORD_BITS], idx % WORD_BITS)
    }

    /** The bitmap says exactly which counters of the window ending at `top` are in `s`. */
    ghost predicate Shows(s: set<nat>, top: nat)
      requires Shape()
      reads `bits, bits
    {
      forall c: nat :: c <= top < c + REPLAY_WINDOW ==> (Bit(c) <==> c in s)
    }

    ghost predicate Valid()
      reads this, bits
    {
      && Shape()
      && (seenAny <==> seen != {})
      && (seenAny ==> IsHighest(seen, highest) && Shows(seen, highest))
    }

    constructor ()
      ensures Valid() && seen == {} && fresh(bits)
    {
      bits := new nat[WINDOW_WORDS](_ => 0);
      highest, seenAny, seen := 0, false, {};
    }

    /** The verdict on `ctr`: exactly the reference rule. */
    method Check(ctr: nat) returns (ok: bool)
      requires Valid()
      ensures ok <==> Accepts(seen, ctr)
    {
      if !seenAny || ctr > highest {
        return true;
      }
      if highest - ctr >= REPLAY_WINDOW {
        return false;
      }
      ok := !Bit(ctr);
    }

    /** Write one slot; every counter within a window of `ctr` keeps its own slot. */
    method Put(ctr: nat, b: bool)
      requires Shape()
      modifies bits
      ensures Bit(ctr) == b
      ensures forall c: nat :: c % REPLAY_WINDOW != ctr % REPLAY_WINDOW ==> Bit(c) == old(Bit(c))
    {
      var idx := ctr % REPLAY_WINDOW;
      bits[idx / WORD_BITS] := PutBit(bits[idx / WORD_BITS], idx % WORD_BITS, b);
      forall c: nat | c % REPLAY_WINDOW != idx
        ensures Bit(c) == old(Bit(c))
      {
        SlotSplits(c, ctr);
      }
    }

    method Wipe()
      requires Shape()
      modifies bits
      ensures forall c: nat :: !Bit(c)
    {
      for i := 0 to WINDOW_WORDS
        invariant forall k :: 0 <= k < i ==> bits[k] == 0
      {
        bits[i] := 0;
      }
      forall c: nat
        ensures !Bit(c)
      {
        ZeroWord(c % REPLAY_WINDOW % WORD_BITS);
      }
    }

    /** Forget what the skipped slots held, between the old top and the new one. */
    method Slide(top: nat)
      requires Valid() && seenAny && highest < top < highest + REPLAY_WINDOW
      modifies bits
      ensures Shows(seen, top)
    {
      var c := highest + 1;
      while c <= top
        invariant highest < c <= top + 1
        invariant Shows(seen, c - 1)
      {
        label before:
        Put(c, false);
        forall k: nat | k <= c < k + REPLAY_WINDOW
          ensures Bit(k) <==> k in seen
        {
          if k < c {
            SlotsDistinct(k, c);
            assert old@before(Bit(k)) == Bit(k);
          }
        }
        c := c + 1;
      }
    }

    /** Record `ctr`: whatever the jump, the window now stands for one more counter. */
    method Commit(ctr: nat)
      requires Valid() && Accepts(seen, ctr)
      modifies this, bits
      ensures Valid() && bits == old(bits)
      ensures seen == old(seen) + {ctr}
    {
      Advance(ctr);
      PutShown(ctr, highest);
      seen := seen + {ctr};
    }

    /** Move the window so that it ends at `ctr` or later, forgetting what falls out of it. */
    method Advance(ctr: nat)
      requires Valid()
      modifies this, bits
      ensures Shape() && bits == old(bits) && seen == old(seen) && seenAny
      ensures ctr <= highest && Shows(seen, highest)
      ensures highest == if old(seenAny) && ctr <= old(highest) then old(highest) else ctr
    {
      if !seenAny {
        seenAny, highest := true, ctr;
        Wipe();
      } else if ctr > highest {
        if ctr - highest >= REPLAY_WINDOW {
          Wipe();
          assert forall c: nat :: c <= ctr < c + REPLAY_WINDOW ==> c !in seen;
        } else {
          Slide(ctr);
        }
        highest := ctr;
      }
    }

    method PutShown(ctr: nat, top: nat)
      requires Shape() && Shows(seen, top) && ctr <= top < ctr + REPLAY_WINDOW
      modifies bits
      ensures Shows(seen + {ctr}, top)
    {
      Put(ctr, true);
      forall k: nat | k <= top < k + REPLAY_WINDOW
        ensures Bit(k) <==> k in seen + {ctr}
      {
        if k != ctr {
          if k < ctr { SlotsDistinct(k, ctr); } else { SlotsDistinct(ctr, k); }
          assert old(Bit(k)) == Bit(k);
        }
      }
    }

    /** A counter that passes is committed at once. */
    method Accept(ctr: nat) returns (ok: bool)
      requires Valid()
      modifies this, bits
      ensures Valid() && bits == old(bits)
      ensures ok == old(Accepts(seen, ctr))
      ensures seen == if ok then old(seen) + {ctr} else old(seen)
    {
      ok := Check(ctr);
      if ok {
        Commit(ctr);
      }
    }
  }

  /**
   Any sequence of accepts, with jumps and slot reuse: a counter is let through exactly
   when it has not been let through before and is less than a window behind the highest.
   */
  method AcceptAll(w: ReplayWindow, ctrs: seq<nat>) returns (verdicts: seq<bool>)
    requires w.Valid() && w.seen == {}
    modifies w, w.bits
    ensures |verdicts| == |ctrs| && Judged(ctrs, verdicts)
  {
    verdicts := [];
    for i := 0 to |ctrs|
      invariant w.Valid() && w.bits == old(w.bits)
      invariant |verdicts| == i && w.seen == Passed(ctrs[..i], verdicts)
      invariant Judged(ctrs[..i], verdicts)
    {
      var ok := w.Accept(ctrs[i]);
      JudgedExtends(ctrs[..i], verdicts, ctrs[i], ok);
      assert ctrs[..i] + [ctrs[i]] == ctrs[..i + 1];
      verdicts := verdicts + [ok];
    }
    assert ctrs[..|ctrs|] == ctrs;
  }

  /** Every verdict is the reference rule over the counters let through before it. */
  predicate Judged(ctrs: seq<nat>, verdicts: seq<bool>)
    requires |ctrs| == |verdicts|
  {
    forall i :: 0 <= i < |ctrs| ==> verdicts[i] == Accepts(Passed(ctrs[..i], verdicts[..i]), ctrs[i])
  }

  lemma JudgedExtends(ctrs: seq<nat>, verdicts: seq<bool>, ctr: nat, ok: bool)
    requires |ctrs| == |verdicts| && Judged(ctrs, verdicts)
    requires ok == Accepts(Passed(ctrs, verdicts), ctr)
    ensures Judged(ctrs + [ctr], verdicts + [ok])
    ensures Passed(ctrs + [ctr], verdicts + [ok]) == Passed(ctrs, verdicts) + if ok then {ctr} else {}
  {
    var cs, vs := ctrs + [ctr], verdicts + [ok];
    assert cs[..|ctrs|] == ctrs && vs[..|ctrs|] == verdicts;
    forall i | 0 <= i < |cs|
      ensures vs[i] == Accepts(Passed(cs[..i], vs[..i]), cs[i])
    {
      if i < |ctrs| {
        assert cs[..i] == ctrs[..i] && vs[..i] == verdicts[..i];
      }
    }
  }

  /** The counters let through so far. */
  function Passed(ctrs: seq<nat>, verdicts: seq<bool>): (s: set<nat>)
    requires |ctrs| == |verdicts|
  {
    if |ctrs| == 0 then {} else
    var rest := Passed(ctrs[..|ctrs| - 1], verdicts[..|ctrs| - 1]);
    if verdicts[|ctrs| - 1] then rest + {ctrs[|ctrs| - 1]} else rest
  }

  lemma {:induction false} PassedHolds(ctrs: seq<nat>, verdicts: seq<bool>, i: nat)
    requires |ctrs| == |verdicts| && i < |ctrs| && verdicts[i]
    ensures ctrs[i] in Passed(ctrs, verdicts)
  {
    var n := |ctrs| - 1;
    if i < n {
      PassedHolds(ctrs[..n], verdicts[..n], i);
    }
  }

  /** In any judged sequence no counter is let through twice. */
  lemma NoCounterTwice(ctrs: seq<nat>, verdicts: seq<bool>, i: nat, j: nat)
    requires |ctrs| == |verdicts| && Judged(ctrs, verdicts)
    requires i < j < |ctrs| && verdicts[i] && verdicts[j]
    ensures ctrs[i] != ctrs[j]
  {
    PassedHolds(ctrs[..j], verdicts[..j], i);
  }
}

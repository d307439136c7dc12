/**
 IP prefixes as the address ranges they cover, and the fact that makes longest-prefix match
 well defined: two prefixes that share an address are nested.
 */
module Cidrs {

  function Pow2(n: nat): (p: nat)
    ensures p > 0
  {
    if n == 0 then 1 else 2 * Pow2(n - 1)
  }

  function Width(v6: bool): nat {
    if v6 then 128 else 32
  }

  datatype RawAddr = Addr(v6: bool, value: nat) {
    predicate Valid() {
      value < Pow2(Width(v6))
    }
  }

  datatype RawNet = Net(v6: bool, addr: nat, len: nat) {
    predicate Valid() {
      len <= Width(v6) && addr < Pow2(Width(v6))
    }

    /** How many addresses the prefix covers. */
    function Size(): (s: nat)
      requires len <= Width(v6)
      ensures s > 0
    {
      Pow2(Width(v6) - len)
    }

    /** The network address. */
    function First(): (a: nat)
      requires len <= Width(v6)
      ensures a <= addr < a + Size()
    {
      DivBounds(addr, Size());
      addr / Size() * Size()
    }

    /** The broadcast address. */
    function Last(): (a: int)
      requires len <= Width(v6)
    {
      First() + Size() - 1
    }

    predicate Has(ip: RawAddr)
      requires len <= Width(v6)
    {
      ip.v6 == v6 && First() <= ip.value <= Last()
    }

    predicate Contains(n: RawNet)
      requires len <= Width(v6) && n.len <= Width(n.v6)
    {
      n.v6 == v6 && First() <= n.First() && n.Last() <= Last()
    }

    /** The same prefix with its host bits cleared. */
    function Trunc(): (n: RawNet)
      requires Valid()
      ensures n.Valid()
    {
      Net(v6, First(), len)
    }

    predicate Truncated()
      requires len <= Width(v6)
    {
      addr == First()
    }
  }

  type Address = a: RawAddr | a.Valid() witness (assert RawAddr.Addr(false, 0).Valid(); Addr(false, 0))
  type Prefix = n: RawNet | n.Valid() witness (assert RawNet.Net(false, 0, 0).Valid(); Net(false, 0, 0))

  /** Do two prefixes share any address? */
  predicate Overlaps(a: Prefix, b: Prefix) {
    a.Has(Addr(b.v6, b.First())) || b.Has(Addr(a.v6, a.First()))
  }

  // ---------- arithmetic ----------

  lemma {:induction false} Pow2Sum(a: nat, b: nat)
    ensures Pow2(a + b) == Pow2(a) * Pow2(b)
  {
    if a > 0 {
      Pow2Sum(a - 1, b);
      assert Pow2(a) * Pow2(b) == 2 * (Pow2(a - 1) * Pow2(b));
    }
  }

  lemma {:induction false} Pow2Grows(a: nat, b: nat)
    requires a <= b
    ensures Pow2(a) <= Pow2(b)
  {
    if a < b {
      Pow2Grows(a, b - 1);
    }
  }

  lemma DivBounds(a: nat, s: nat)
    requires s > 0
    ensures 0 <= a / s * s <= a < a / s * s + s
  {
    assert a == a / s * s + a % s;
  }

  lemma LessByFactor(a: nat, b: nat, s: nat)
    requires a * s < b * s
    ensures a < b
  {
    if a >= b {
      MoreByFactor(b, a, s);
    }
  }

  lemma MoreByFactor(a: nat, b: nat, s: nat)
    requires a <= b
    ensures a * s <= b * s
  {
    assert b * s == a * s + (b - a) * s;
  }

  lemma FactorOnce(q: nat, s: nat)
    requires s > 0
    ensures q * s / s == q
  {
    var p := q * s / s;
    DivBounds(q * s, s);
    assert p * s < (q + 1) * s && q * s < (p + 1) * s;
    LessByFactor(p, q + 1, s);
    LessByFactor(q, p + 1, s);
  }

  /** Blocks of sizes m * s and s, each aligned to its size, that share a point are nested. */
  lemma AlignedBlocksNest(q: nat, m: nat, j: nat, s: nat, x: nat)
    requires q * (m * s) <= x < q * (m * s) + m * s
    requires j * s <= x < j * s + s
    ensures q * (m * s) <= j * s && j * s + s <= q * (m * s) + m * s
  {
    var k := q * m;
    assert q * (m * s) == k * s;
    assert k * s + m * s == (k + m) * s && j * s + s == (j + 1) * s;
    LessByFactor(k, j + 1, s);
    LessByFactor(j, k + m, s);
    MoreByFactor(k, j, s);
    MoreByFactor(j + 1, k + m, s);
  }

  lemma SizesDivide(v6: bool, a: nat, b: nat)
    requires a <= b <= Width(v6)
    ensures Pow2(Width(v6) - a) == Pow2(b - a) * Pow2(Width(v6) - b)
  {
    Pow2Sum(b - a, Width(v6) - b);
  }

  // ---------- nesting ----------

  /** Of two prefixes that share an address, the shorter contains the longer. */
  lemma SharedMeansNested(a: Prefix, b: Prefix, ip: Address)
    requires a.Has(ip) && b.Has(ip) && a.len <= b.len
    ensures a.Contains(b)
  {
    SizesDivide(a.v6, a.len, b.len);
    AlignedBlocksNest(a.addr / a.Size(), Pow2(b.len - a.len), b.addr / b.Size(), b.Size(), ip.value);
  }

  /** Aligned prefixes overlap exactly when they share an address, and then they are nested. */
  lemma OverlapsIffShared(a: Prefix, b: Prefix)
    ensures Overlaps(a, b) <==> exists ip: Address :: a.Has(ip) && b.Has(ip)
    ensures Overlaps(a, b) <==> a.Contains(b) || b.Contains(a)
  {
    var x: Address, y: Address := Addr(a.v6, a.First()), Addr(b.v6, b.First());
    assert a.Has(x) && b.Has(y);
    if ip: Address :| a.Has(ip) && b.Has(ip) {
      if a.len <= b.len {
        SharedMeansNested(a, b, ip);
      } else {
        SharedMeansNested(b, a, ip);
      }
    }
  }

  /** Same length and one shared address: the same prefix once truncated. */
  lemma SameLengthSharedIsSame(a: Prefix, b: Prefix, ip: Address)
    requires a.Has(ip) && b.Has(ip) && a.len == b.len
    ensures a.Trunc() == b.Trunc()
  {
    SharedMeansNested(a, b, ip);
    SharedMeansNested(b, a, ip);
  }

  /** Truncating changes the spelling of a prefix, not what it covers. */
  lemma TruncCoversTheSame(n: Prefix)
    ensures n.Trunc().First() == n.First() && n.Trunc().Last() == n.Last()
    ensures n.Trunc().Truncated() && n.Trunc().Trunc() == n.Trunc()
  {
    FactorOnce(n.addr / n.Size(), n.Size());
  }
}

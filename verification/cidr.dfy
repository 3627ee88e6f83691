/** Prefixes as sets of addresses (section 3.1 of RFC 4632), for widths 32 and 128. */
module Cidr {

  function Pow2(n: nat): (r: nat)
    ensures r > 0
  {
    if n == 0 then 1 else 2 * Pow2(n - 1)
  }

  datatype Family = V4 | V6

  function Width(f: Family): nat { if f == V4 then 32 else 128 }

  datatype Prefix = Prefix(family: Family, addr: nat, bits: nat) {
    predicate Valid() { bits <= Width(family) && addr < Pow2(Width(family)) }
  }

  /** Bitwise AND of two `w`-bit numbers. */
  function BitAnd(a: nat, b: nat, w: nat): nat {
    if w == 0 then 0
    else 2 * BitAnd(a / 2, b / 2, w - 1) + (a % 2) * (b % 2)
  }

  /** `p` ones followed by `w - p` zeros. */
  function Mask(w: nat, p: nat): (m: nat)
    requires p <= w
  {
    Pow2Grows(w - p, w);
    Pow2(w) - Pow2(w - p)
  }

  /** The prefix with its host bits cleared. */
  function Masked(p: Prefix): Prefix
    requires p.Valid()
  {
    p.(addr := BitAnd(p.addr, Mask(Width(p.family), p.bits), Width(p.family)))
  }

  /** The size of the block of addresses. */
  function Block(p: Prefix): (r: nat)
    requires p.Valid()
    ensures r > 0
  {
    Pow2(Width(p.family) - p.bits)
  }

  /** `x` is an address of the prefix: it has the same leading bits. */
  predicate Covers(p: Prefix, f: Family, x: nat)
    requires p.Valid()
  {
    f == p.family && x < Pow2(Width(f)) && x / Block(p) == p.addr / Block(p)
  }

  lemma {:induction false} Pow2Grows(a: nat, b: nat)
    requires a <= b
    ensures Pow2(a) <= Pow2(b)
    ensures a < b ==> Pow2(a) < Pow2(b)
    decreases b
  {
    if a < b { Pow2Grows(a, b - 1); }
  }

  lemma {:induction false} Pow2Sum(a: nat, b: nat)
    ensures Pow2(a) * Pow2(b) == Pow2(a + b)
  {
    if a > 0 {
      Pow2Sum(a - 1, b);
      assert Pow2(a) * Pow2(b) == 2 * (Pow2(a - 1) * Pow2(b));
    }
  }

  lemma DivMod(a: nat, m: nat)
    requires m > 0
    ensures a == (a / m) * m + a % m && 0 <= a % m < m
  {
  }

  lemma MulStep(a: nat, b: nat, m: nat)
    requires a < b
    ensures a * m + m <= b * m
  {
    var d := b - a - 1;
    assert (a + 1 + d) * m == a * m + m + d * m;
    assert d * m >= 0;
  }

  /** The only quotient and remainder. */
  lemma QuotientIs(a: nat, q: nat, r: nat, m: nat)
    requires m > 0 && a == q * m + r && r < m
    ensures a / m == q && a % m == r
  {
    DivMod(a, m);
    if a / m < q { MulStep(a / m, q, m); }
    else if a / m > q { MulStep(q, a / m, m); }
  }

  lemma ModDouble(a: nat, m: nat)
    requires m > 0
    ensures a % (2 * m) == 2 * ((a / 2) % m) + a % 2
  {
    DivMod(a / 2, m);
    var q, r := (a / 2) / m, (a / 2) % m;
    assert a == q * (2 * m) + (2 * r + a % 2);
    QuotientIs(a, q, 2 * r + a % 2, 2 * m);
  }

  lemma {:induction false} AndOnes(a: nat, w: nat)
    requires a < Pow2(w)
    ensures BitAnd(a, Pow2(w) - 1, w) == a
  {
    if w > 0 { AndOnes(a / 2, w - 1); }
  }

  /** Masking by AND clears exactly the low bits. */
  lemma {:induction false} AndMask(a: nat, w: nat, p: nat)
    requires p <= w && a < Pow2(w)
    ensures BitAnd(a, Mask(w, p), w) == a - a % Pow2(w - p)
    decreases w
  {
    if p == w {
      AndOnes(a, w);
    } else {
      Pow2Grows(w - 1 - p, w - 1);
      assert Mask(w, p) == 2 * Mask(w - 1, p);
      AndMask(a / 2, w - 1, p);
      ModDouble(a, Pow2(w - 1 - p));
    }
  }

  /** Agreeing on the quotient is lying in the same block. */
  lemma SameQuotient(x: nat, a: nat, h: nat)
    requires h > 0
    ensures x / h == a / h <==> a - a % h <= x < a - a % h + h
  {
    DivMod(a, h);
    DivMod(x, h);
    var base := (a / h) * h;
    if base <= x < base + h { QuotientIs(x, a / h, x - base, h); }
  }

  /** A block of `h` addresses that starts below `n * h` ends there at the latest. */
  lemma BlockFits(a: nat, n: nat, h: nat)
    requires h > 0 && a < n * h
    ensures a - a % h + h <= n * h
  {
    DivMod(a, h);
    if a / h < n { MulStep(a / h, n, h); }
    else if a / h > n { MulStep(n, a / h, h); }
  }

  /** The addresses of a prefix form the block that starts at its masked address. */
  lemma CoversIsBlock(p: Prefix, x: nat)
    requires p.Valid()
    ensures Masked(p).Valid()
    ensures Masked(p).addr + Block(p) <= Pow2(Width(p.family))
    ensures Covers(p, p.family, x) <==> Masked(p).addr <= x < Masked(p).addr + Block(p)
  {
    var w := Width(p.family);
    AndMask(p.addr, w, p.bits);
    Pow2Sum(p.bits, w - p.bits);
    BlockFits(p.addr, Pow2(p.bits), Block(p));
    SameQuotient(x, p.addr, Block(p));
  }

  ghost predicate SameCover(p: Prefix, q: Prefix)
    requires p.Valid() && q.Valid()
  {
    forall f: Family, x: nat :: Covers(p, f, x) <==> Covers(q, f, x)
  }

  lemma BlocksAgree(p: Prefix, q: Prefix)
    requires p.Valid() && q.Valid() && SameCover(p, q)
    ensures p.family == q.family && Masked(p).addr <= Masked(q).addr
    ensures Masked(q).addr + Block(q) <= Masked(p).addr + Block(p)
  {
    var first, last := Masked(q).addr, Masked(q).addr + Block(q) - 1;
    CoversIsBlock(q, first);
    CoversIsBlock(q, last);
    assert Covers(q, q.family, first) && Covers(q, q.family, last);
    assert Covers(p, q.family, first) && Covers(p, q.family, last);
    CoversIsBlock(p, first);
    CoversIsBlock(p, last);
  }

  lemma MaskedNumber(p: Prefix)
    requires p.Valid()
    ensures Masked(p).addr == p.addr - p.addr % Block(p)
  {
    AndMask(p.addr, Width(p.family), p.bits);
  }

  /** Comparing masked prefixes decides whether two prefixes cover the same addresses. */
  lemma MaskedDecidesCover(p: Prefix, q: Prefix)
    requires p.Valid() && q.Valid()
    ensures Masked(p) == Masked(q) <==> SameCover(p, q)
  {
    if Masked(p) == Masked(q) {
      forall f: Family, x: nat ensures Covers(p, f, x) <==> Covers(q, f, x) {
        CoversIsBlock(p, x);
        CoversIsBlock(q, x);
      }
    }
    if SameCover(p, q) {
      BlocksAgree(p, q);
      BlocksAgree(q, p);
      var w := Width(p.family);
      if p.bits < q.bits { Pow2Grows(w - q.bits, w - p.bits); }
      if q.bits < p.bits { Pow2Grows(w - p.bits, w - q.bits); }
    }
  }

  /** Masking is idempotent and keeps the set of addresses. */
  lemma MaskedKeepsCover(p: Prefix)
    requires p.Valid()
    ensures Masked(p).Valid() && Masked(Masked(p)) == Masked(p) && SameCover(p, Masked(p))
  {
    CoversIsBlock(p, 0);
    var h, w := Block(p), Width(p.family);
    AndMask(p.addr, w, p.bits);
    AndMask(Masked(p).addr, w, p.bits);
    DivMod(p.addr, h);
    QuotientIs(Masked(p).addr, p.addr / h, 0, h);
    MaskedDecidesCover(p, Masked(p));
  }
}

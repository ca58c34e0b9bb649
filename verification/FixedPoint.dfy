/** Integer widths and the fixed-point helpers that the pallets borrow from `sp_runtime`. */
module FixedPoint {

  const U128_MAX: nat := 0xFFFF_FFFF_FFFF_FFFF_FFFF_FFFF_FFFF_FFFF
  const MILLION: nat := 1_000_000
  const QUINTILL: nat := 1_000_000_000_000_000_000

  predicate Fits(x: int) {
    0 <= x <= U128_MAX
  }

  function Min(a: nat, b: nat): nat {
    if a <= b then a else b
  }

  function Abs(x: int): nat {
    if x < 0 then -x else x
  }

  /** `Permill::mul_ceil`: the ceiling of parts * x / 10^6. */
  function MulCeil(parts: nat, x: nat): nat {
    (parts * x + MILLION - 1) / MILLION
  }

  /** `Perquintill::from_rational`: p / q in parts of 10^18, rounded down and capped at one. */
  function Proportion(p: nat, q: nat): nat
    requires q > 0
  {
    Min(p, q) * QUINTILL / q
  }

  /** `Perquintill * n`: nearest integer to r * n / 10^18, ties rounded down. */
  function Scaled(r: nat, n: nat): nat {
    var z := r * n;
    z / QUINTILL + if z % QUINTILL > QUINTILL / 2 then 1 else 0
  }

  /** What a holder of `part` out of `whole` draws from `pot`. */
  function Share(part: nat, whole: nat, pot: nat): nat
    requires whole > 0
  {
    Scaled(Proportion(part, whole), pot)
  }

  /** A fee of at most one half that takes everything can only take nothing or a single unit. */
  lemma HalfFeeTakesAll(parts: nat, x: nat)
    requires parts <= MILLION / 2
    requires MulCeil(parts, x) == x
    ensures x <= 1
  {
    MulMono(parts, MILLION / 2, x);
    FloorBound(parts * x + MILLION - 1, MILLION);
  }

  lemma NoFeeOnNothing(parts: nat)
    ensures MulCeil(parts, 0) == 0
  {
  }

  lemma MulMono(a: nat, b: nat, c: nat)
    requires a <= b
    ensures a * c <= b * c
  {
  }

  lemma FloorBound(n: nat, d: nat)
    requires d > 0
    ensures n / d * d <= n
  {
  }

  function FloorDiv(n: nat, d: nat): nat
    requires d > 0
  {
    n / d
  }

  /** Quotient and remainder are determined by x == d * q + r with 0 <= r < d. */
  lemma DivUnique(x: nat, d: nat, q: nat, r: nat)
    requires x == d * q + r && r < d
    ensures x / d == q && x % d == r
  {
    var p := x / d;
    assert x == d * p + x % d;
    if p < q {
      MulMono(p + 1, q, d);
    } else if q < p {
      MulMono(q + 1, p, d);
    }
  }

  /** Scaling quotient and remainder apart is scaling before the division. */
  lemma SplitDivision(n: nat, d: nat, unit: nat)
    requires d > 0
    ensures FloorDiv(n, d) * unit + FloorDiv(n % d * unit, d) == FloorDiv(n * unit, d)
  {
    var q, r := n / d, n % d;
    var m := r * unit;
    SplitAlgebra(n, d, unit, q, r, m / d, m % d);
    DivUnique(n * unit, d, q * unit + m / d, m % d);
  }

  lemma SplitAlgebra(n: nat, d: nat, unit: nat, q: nat, r: nat, p: nat, rest: nat)
    requires n == d * q + r && r * unit == d * p + rest
    ensures n * unit == d * (q * unit + p) + rest
  {
    Distribute(d * q, r, unit);
    Swap(d, q, unit);
    Distribute(q * unit, p, d);
  }

  lemma Distribute(a: nat, b: nat, c: nat)
    ensures (a + b) * c == a * c + b * c
    ensures c * (a + b) == c * a + c * b
  {
  }

  lemma ScaledBound(r: nat, n: nat)
    ensures 2 * QUINTILL * Scaled(r, n) <= 2 * (r * n) + QUINTILL
  {
  }

  lemma ProportionBound(part: nat, whole: nat)
    requires 0 < whole && part <= whole
    ensures Proportion(part, whole) * whole <= part * QUINTILL
  {
    FloorBound(part * QUINTILL, whole);
  }

  lemma Swap(a: nat, b: nat, c: nat)
    ensures (a * b) * c == (a * c) * b
    ensures (a * b) * c == a * (b * c)
  {
  }

  lemma ShareStep(unit: nat, r: nat, part: nat, whole: nat, pot: nat, q: nat)
    requires 0 < unit && r * whole <= part * unit
    requires 2 * unit * q <= 2 * (r * pot) + unit
    ensures 2 * (whole * q) <= 2 * (part * pot) + whole
  {
    var left, right := 2 * (whole * q), 2 * (part * pot) + whole;
    MulMono(2 * unit * q, 2 * (r * pot) + unit, whole);
    assert (2 * unit * q) * whole == unit * left by { Swap(2 * unit, q, whole); Swap(unit, q, whole); }
    assert (2 * (r * pot) + unit) * whole == 2 * ((r * pot) * whole) + unit * whole;
    Swap(r, pot, whole);
    MulMono(r * whole, part * unit, pot);
    Swap(part, unit, pot);
    assert (part * pot) * unit == unit * (part * pot);
    assert unit * right == 2 * (unit * (part * pot)) + unit * whole;
    CancelWhole(unit, left, right);
  }

  /** Rounding adds at most half a unit: 2 * whole * share <= 2 * part * pot + whole. */
  lemma ShareBound(part: nat, whole: nat, pot: nat)
    requires 0 < whole && part <= whole
    ensures 2 * (whole * Share(part, whole, pot)) <= 2 * (part * pot) + whole
  {
    ProportionBound(part, whole);
    ScaledBound(Proportion(part, whole), pot);
    ShareStep(QUINTILL, Proportion(part, whole), part, whole, pot, Share(part, whole, pot));
  }

  lemma ScaledGrows(r: nat, n: nat, m: nat)
    requires n <= m
    ensures Scaled(r, n) <= Scaled(r, m)
  {
    MulMono(n, m, r);
    RoundingGrows(r * n, r * m);
  }

  lemma RoundingGrows(x: nat, y: nat)
    requires x <= y
    ensures x / QUINTILL + (if x % QUINTILL > QUINTILL / 2 then 1 else 0)
            <= y / QUINTILL + (if y % QUINTILL > QUINTILL / 2 then 1 else 0)
  {
  }

  /** `MulCeil` is the least whole number that covers parts * x / 10^6. */
  lemma CeilIsLeast(parts: nat, x: nat, n: nat)
    ensures n >= MulCeil(parts, x) <==> n * MILLION >= parts * x
  {
  }

  lemma ScaledAtLeast(r: nat, n: nat)
    ensures 2 * QUINTILL * Scaled(r, n) + QUINTILL >= 2 * (r * n)
  {
  }

  lemma ProportionAtLeast(part: nat, whole: nat)
    requires 0 < whole && part <= whole
    ensures Proportion(part, whole) * whole + whole >= part * QUINTILL
  {
    RemainderSmall(part * QUINTILL, whole);
  }

  lemma RemainderSmall(n: nat, d: nat)
    requires d > 0
    ensures n / d * d + d >= n
  {
  }

  /** The other side of `ShareBound`: a share falls short by at most half a unit and pot / 10^18. */
  lemma ShareAtLeast(part: nat, whole: nat, pot: nat)
    requires 0 < whole && part <= whole
    ensures 2 * (QUINTILL * (part * pot))
            <= 2 * (QUINTILL * (whole * Share(part, whole, pot))) + whole * (QUINTILL + 2 * pot)
  {
    ProportionAtLeast(part, whole);
    ScaledAtLeast(Proportion(part, whole), pot);
    ShareShortfall(QUINTILL, Proportion(part, whole), part, whole, pot, Share(part, whole, pot));
  }

  lemma ShareShortfall(unit: nat, r: nat, part: nat, whole: nat, pot: nat, q: nat)
    requires r * whole + whole >= part * unit
    requires 2 * unit * q + unit >= 2 * (r * pot)
    ensures 2 * (unit * (part * pot)) <= 2 * (unit * (whole * q)) + whole * (unit + 2 * pot)
  {
    var x, y := r * pot, unit * q;
    assert 2 * unit * q == 2 * y by { Swap(2, unit, q); }
    MulMono(part * unit, r * whole + whole, pot);
    assert (part * unit) * pot == unit * (part * pot) by { Swap(part, unit, pot); }
    assert (r * whole + whole) * pot == whole * x + whole * pot by {
      Distribute(r * whole, whole, pot);
      Swap(r, whole, pot);
    }
    MulMono(2 * x, 2 * y + unit, whole);
    assert (2 * x) * whole == 2 * (whole * x);
    assert (2 * y + unit) * whole == 2 * (whole * y) + whole * unit by { Distribute(2 * y, unit, whole); }
    assert whole * y == unit * (whole * q) by { Swap(whole, unit, q); Swap(unit, whole, q); }
    Distribute(unit, 2 * pot, whole);
    assert whole * (2 * pot) == 2 * (whole * pot);
  }

  /** Holders of known parts draw at least their part of the pot, less half a unit and pot / 10^18 each. */
  lemma {:induction false} SharesDrawnAtLeast(parts: seq<nat>, whole: nat, pot: nat)
    requires 0 < whole && SumOf(parts) <= whole
    ensures 2 * (QUINTILL * (SumOf(parts) * pot))
            <= 2 * (QUINTILL * (whole * SharesDrawn(parts, whole, pot))) + |parts| * (whole * (QUINTILL + 2 * pot))
  {
    if parts == [] {
      assert SumOf(parts) == 0;
    } else {
      var init, last := parts[..|parts| - 1], parts[|parts| - 1];
      SharesDrawnAtLeast(init, whole, pot);
      ShareAtLeast(last, whole, pot);
      AddShortfalls(QUINTILL, whole, pot, SharesDrawn(init, whole, pot), Share(last, whole, pot), SumOf(init), last, |init|,
                    whole * (QUINTILL + 2 * pot));
    }
  }

  lemma AddShortfalls(unit: nat, whole: nat, pot: nat, a: nat, b: nat, x: nat, y: nat, n: nat, e: nat)
    requires 2 * (unit * (x * pot)) <= 2 * (unit * (whole * a)) + n * e
    requires 2 * (unit * (y * pot)) <= 2 * (unit * (whole * b)) + e
    ensures 2 * (unit * ((x + y) * pot)) <= 2 * (unit * (whole * (a + b))) + (n + 1) * e
  {
    Distribute(x, y, pot);
    Distribute(x * pot, y * pot, unit);
    Distribute(a, b, whole);
    Distribute(whole * a, whole * b, unit);
    Distribute(n, 1, e);
  }

  /** Holders of parts that make up the whole together draw at least the pot, less half a unit and
      pot / 10^18 each. */
  lemma SharesUseThePot(parts: seq<nat>, whole: nat, pot: nat)
    requires 0 < whole && SumOf(parts) == whole
    ensures 2 * (QUINTILL * pot) <= 2 * (QUINTILL * SharesDrawn(parts, whole, pot)) + |parts| * (QUINTILL + 2 * pot)
  {
    SharesDrawnAtLeast(parts, whole, pot);
    CancelShortfall(QUINTILL, whole, pot, SharesDrawn(parts, whole, pot), |parts|, QUINTILL + 2 * pot);
  }

  lemma CancelShortfall(unit: nat, whole: nat, pot: nat, drawn: nat, n: nat, e: nat)
    requires 0 < whole && 2 * (unit * (whole * pot)) <= 2 * (unit * (whole * drawn)) + n * (whole * e)
    ensures 2 * (unit * pot) <= 2 * (unit * drawn) + n * e
  {
    var x, y := unit * pot, unit * drawn;
    assert unit * (whole * pot) == whole * x by { Swap(unit, whole, pot); Swap(whole, unit, pot); }
    assert unit * (whole * drawn) == whole * y by { Swap(unit, whole, drawn); Swap(whole, unit, drawn); }
    assert n * (whole * e) == whole * (n * e) by { Swap(n, whole, e); Swap(whole, n, e); }
    Distribute(2 * y, n * e, whole);
    assert whole * (2 * x) == 2 * (whole * x) && whole * (2 * y) == 2 * (whole * y);
    CancelWhole(whole, 2 * x, 2 * y + n * e);
  }

  function SumOf(parts: seq<nat>): nat {
    if parts == [] then 0 else SumOf(parts[..|parts| - 1]) + parts[|parts| - 1]
  }

  function SharesDrawn(parts: seq<nat>, whole: nat, pot: nat): nat
    requires whole > 0
  {
    if parts == [] then 0
    else SharesDrawn(parts[..|parts| - 1], whole, pot) + Share(parts[|parts| - 1], whole, pot)
  }

  lemma {:induction false} SharesDrawnScaled(parts: seq<nat>, whole: nat, pot: nat)
    requires 0 < whole && SumOf(parts) <= whole
    ensures 2 * (whole * SharesDrawn(parts, whole, pot)) <= 2 * (SumOf(parts) * pot) + |parts| * whole
  {
    if parts == [] {
      assert SumOf(parts) == 0;
    } else {
      var init, last := parts[..|parts| - 1], parts[|parts| - 1];
      SharesDrawnScaled(init, whole, pot);
      ShareBound(last, whole, pot);
      AddBounds(whole, pot, SharesDrawn(init, whole, pot), Share(last, whole, pot), SumOf(init), last, |init|);
    }
  }

  lemma AddBounds(whole: nat, pot: nat, a: nat, b: nat, x: nat, y: nat, n: nat)
    requires 2 * (whole * a) <= 2 * (x * pot) + n * whole
    requires 2 * (whole * b) <= 2 * (y * pot) + whole
    ensures 2 * (whole * (a + b)) <= 2 * ((x + y) * pot) + (n + 1) * whole
  {
    assert whole * (a + b) == whole * a + whole * b;
    assert (x + y) * pot == x * pot + y * pot;
  }

  lemma CancelWhole(whole: nat, x: nat, y: nat)
    requires 0 < whole && whole * x <= whole * y
    ensures x <= y
  {
    if x > y {
      MulMono(y + 1, x, whole);
    }
  }

  /** Holders of parts that fit in the whole together draw at most the pot and half a unit each. */
  lemma SharesNeverOverdraw(parts: seq<nat>, whole: nat, pot: nat)
    requires 0 < whole && SumOf(parts) <= whole
    ensures 2 * SharesDrawn(parts, whole, pot) <= 2 * pot + |parts|
  {
    SharesDrawnScaled(parts, whole, pot);
    Overdraw(whole, pot, SharesDrawn(parts, whole, pot), SumOf(parts), |parts|);
  }

  lemma Overdraw(whole: nat, pot: nat, drawn: nat, sum: nat, n: nat)
    requires 0 < whole && sum <= whole
    requires 2 * (whole * drawn) <= 2 * (sum * pot) + n * whole
    ensures 2 * drawn <= 2 * pot + n
  {
    MulMono(sum, whole, pot);
    assert whole * (2 * drawn) == 2 * (whole * drawn);
    assert whole * (2 * pot + n) == 2 * (whole * pot) + n * whole;
    CancelWhole(whole, 2 * drawn, 2 * pot + n);
  }
}

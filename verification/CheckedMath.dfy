/**
  The portable overflow-checked and clamped operations of base/numerics, for an integer type of
  any width, signed or unsigned: all arithmetic is on the unsigned type of the same width, with
  overflow read off the top bits.
*/
module CheckedMath {
  import opened Numbers
  import opened Wrappers

  function Pow2(n: nat): (p: nat)
    ensures p > 0
  {
    if n == 0 then 1 else 2 * Pow2(n - 1)
  }

  /** Bitwise operators on `n`-bit words, top bit first. */
  function Xor(n: nat, a: nat, b: nat): (r: nat)
    requires a < Pow2(n) && b < Pow2(n)
    ensures r < Pow2(n)
    ensures n > 0 ==> (r >= Pow2(n - 1) <==> (a >= Pow2(n - 1)) != (b >= Pow2(n - 1)))
  {
    if n == 0 then 0 else
      var h := Pow2(n - 1);
      (if (a >= h) != (b >= h) then h else 0) + Xor(n - 1, if a >= h then a - h else a, if b >= h then b - h else b)
  }

  function And(n: nat, a: nat, b: nat): (r: nat)
    requires a < Pow2(n) && b < Pow2(n)
    ensures r < Pow2(n)
    ensures n > 0 ==> (r >= Pow2(n - 1) <==> a >= Pow2(n - 1) && b >= Pow2(n - 1))
  {
    if n == 0 then 0 else
      var h := Pow2(n - 1);
      (if a >= h && b >= h then h else 0) + And(n - 1, if a >= h then a - h else a, if b >= h then b - h else b)
  }

  /** An integer type: `bits + 1` bits wide. */
  datatype Int = Int(bits: nat, signed: bool) {
    function Width(): nat { bits + 1 }

    function Half(): (h: nat)
      ensures h > 0 && Pow2(Width()) == 2 * h
    {
      Pow2(bits)
    }

    function Min(): int { if signed then -(Half() as int) else 0 }

    function Max(): int { if signed then Half() - 1 else 2 * Half() - 1 }

    predicate Has(x: int) { Min() <= x <= Max() }

    /** The cast to the unsigned type. */
    function Unsigned(x: int): (u: nat)
      ensures u < Pow2(Width())
    {
      x % (2 * Half())
    }

    /** The cast of a word to the signed type is negative. */
    predicate TopBit(u: nat) { u >= Half() }

    /** The cast of a word to this type. */
    function Cast(u: nat): int
      requires u < Pow2(Width())
    {
      if signed && TopBit(u) then u - 2 * Half() else u
    }

    function Clamp(x: int): int { if x < Min() then Min() else if x > Max() then Max() else x }
  }

  lemma UnsignedOf(t: Int, x: int)
    requires t.Has(x)
    ensures t.Unsigned(x) == if x < 0 then x + 2 * t.Half() else x
    ensures t.signed ==> (t.TopBit(t.Unsigned(x)) <==> x < 0)
  {
    Wrap(x, 2 * t.Half());
  }

  lemma Wrap(x: int, m: int)
    requires m > 0 && -m <= x < 2 * m
    ensures x % m == if x < 0 then x + m else if x < m then x else x - m
  {
    if x < 0 { ModIs(x, m, -1); } else if x < m { ModIs(x, m, 0); } else { ModIs(x, m, 1); }
  }

  lemma ModIs(x: int, m: int, q: int)
    requires m > 0 && -1 <= q <= 1 && 0 <= x - q * m < m
    ensures x % m == x - q * m
  {
    var d := x / m - q;
    assert x == m * (x / m) + x % m;
    assert m * d == (x - q * m) - x % m by { assert m * (x / m - q) == m * (x / m) - m * q; }
    FarMultiples(m, d);
  }

  lemma FarMultiples(m: int, d: int)
    requires m > 0
    ensures d >= 1 ==> m * d >= m
    ensures d <= -1 ==> m * d <= -m
  {
  }

  function CheckedAdd(t: Int, x: int, y: int): Option<int> {
    var w, ux, uy := t.Width(), t.Unsigned(x), t.Unsigned(y);
    var u := t.Unsigned(ux + uy);
    if (if t.signed then t.TopBit(And(w, Xor(w, u, ux), Xor(w, u, uy))) else u < uy) then None else Some(t.Cast(u))
  }

  function CheckedSub(t: Int, x: int, y: int): Option<int> {
    var w, ux, uy := t.Width(), t.Unsigned(x), t.Unsigned(y);
    var u := t.Unsigned(ux - uy);
    if (if t.signed then t.TopBit(And(w, Xor(w, u, ux), Xor(w, ux, uy))) else x < y) then None else Some(t.Cast(u))
  }

  /** `SafeUnsignedAbs`. */
  function UnsignedAbs(t: Int, x: int): (u: nat)
    ensures u < Pow2(t.Width())
  {
    if x < 0 then t.Unsigned(0 - t.Unsigned(x)) else t.Unsigned(x)
  }

  function CheckedMul(t: Int, x: int, y: int): Option<int> {
    var negative := t.signed && t.TopBit(Xor(t.Width(), t.Unsigned(x), t.Unsigned(y)));
    MulMagnitudes(t, UnsignedAbs(t, x), UnsignedAbs(t, y), negative)
  }

  /** A fast out for a second factor 0 or 1, then an overflow test that allows one more below zero. */
  function MulMagnitudes(t: Int, ux: nat, uy: nat, negative: bool): Option<int> {
    var u := t.Unsigned(ux * uy);
    if uy > (if !t.signed || negative then 1 else 0) && ux > (t.Max() + if negative then 1 else 0) / uy then None
    else Some(t.Cast(if negative then t.Unsigned(0 - u) else u))
  }

  /** What each checked operation should return: the exact value, if and only if the type has it. */
  function Exactly(t: Int, v: int): Option<int> { if t.Has(v) then Some(v) else None }

  lemma CheckedAddIsExact(t: Int, x: int, y: int)
    requires t.Has(x) && t.Has(y)
    ensures CheckedAdd(t, x, y) == Exactly(t, x + y)
  {
    UnsignedOf(t, x);
    UnsignedOf(t, y);
    Wrap(t.Unsigned(x) + t.Unsigned(y), 2 * t.Half());
  }

  lemma CheckedSubIsExact(t: Int, x: int, y: int)
    requires t.Has(x) && t.Has(y)
    ensures CheckedSub(t, x, y) == Exactly(t, x - y)
  {
    UnsignedOf(t, x);
    UnsignedOf(t, y);
    Wrap(t.Unsigned(x) - t.Unsigned(y), 2 * t.Half());
  }

  lemma UnsignedAbsIsAbs(t: Int, x: int)
    requires t.Has(x)
    ensures UnsignedAbs(t, x) == Abs(x)
  {
    UnsignedOf(t, x);
    if x < 0 { Wrap(0 - t.Unsigned(x), 2 * t.Half()); }
  }

  /** The division in the overflow test compares the product. */
  lemma QuotientTest(a: nat, b: nat, m: nat)
    requires b > 0
    ensures a > m / b <==> a * b > m
  {
    var q := m / b;
    assert m == b * q + m % b;
    FarMultiples(b, a - q);
    assert b * (a - q) == b * a - b * q;
    if a == q { assert b * a == b * q; }
  }

  lemma ProductSign(x: int, y: int)
    ensures x * y == if (x < 0) != (y < 0) then -(Abs(x) * Abs(y)) else Abs(x) * Abs(y)
  {
  }

  /** The overflow test decides whether the product of the magnitudes is beyond the bound `m`. */
  lemma MulTest(ux: nat, uy: nat, m: nat, skip: nat)
    requires ux * uy > m ==> uy > skip
    ensures (uy > skip && ux > m / uy) <==> ux * uy > m
  {
    if uy > skip { QuotientTest(ux, uy, m); }
  }

  lemma CheckedMulIsExact(t: Int, x: int, y: int)
    requires t.Has(x) && t.Has(y)
    ensures CheckedMul(t, x, y) == Exactly(t, x * y)
  {
    UnsignedOf(t, x);
    UnsignedOf(t, y);
    UnsignedAbsIsAbs(t, x);
    UnsignedAbsIsAbs(t, y);
    ProductSign(x, y);
    MulMagnitudesIsExact(t, Abs(x), Abs(y), t.signed && (x < 0) != (y < 0));
  }

  lemma MulMagnitudesIsExact(t: Int, ux: nat, uy: nat, negative: bool)
    requires negative ==> t.signed
    requires ux <= t.Max() + if t.signed then 1 else 0
    ensures MulMagnitudes(t, ux, uy, negative) == Exactly(t, if negative then -(ux * uy) else ux * uy)
  {
    SmallFactor(ux, uy);
    MulTest(ux, uy, t.Max() + (if negative then 1 else 0), if !t.signed || negative then 1 else 0);
    ProductFits(t, ux * uy, negative);
  }

  /** A magnitude within the bound survives the cast with its sign; one beyond it does not fit. */
  lemma ProductFits(t: Int, p: int, negative: bool)
    requires p >= 0 && (negative ==> t.signed)
    ensures var m, v := t.Max() + (if negative then 1 else 0), if negative then -p else p;
      && (p <= m <==> t.Has(v))
      && (p <= m ==> t.Cast(if negative then t.Unsigned(0 - t.Unsigned(p)) else t.Unsigned(p)) == v)
  {
    if p <= t.Max() + (if negative then 1 else 0) {
      Wrap(p, 2 * t.Half());
      Wrap(0 - p, 2 * t.Half());
    }
  }

  lemma SmallFactor(a: nat, b: nat)
    ensures b == 0 ==> a * b == 0
    ensures b == 1 ==> a * b == a
  {
  }

  /** `CommonMaxOrMin`. */
  function MaxOrMin(t: Int, isMin: bool): int { if isMin then t.Min() else t.Max() }

  function ClampedAdd(t: Int, x: int, y: int): int {
    var r := CheckedAdd(t, x, y);
    if r.Some? then r.value else MaxOrMin(t, y < 0)
  }

  function ClampedSub(t: Int, x: int, y: int): int {
    var r := CheckedSub(t, x, y);
    if r.Some? then r.value else MaxOrMin(t, !(y < 0))
  }

  function ClampedMul(t: Int, x: int, y: int): int {
    var r := CheckedMul(t, x, y);
    if r.Some? then r.value else MaxOrMin(t, (x < 0) != (y < 0))
  }

  function SaturatedAbs(t: Int, x: int): int {
    var u := UnsignedAbs(t, x);
    t.Cast(t.Unsigned(u - if t.Cast(u) < 0 then 1 else 0))
  }

  lemma ClampedAddIsClamp(t: Int, x: int, y: int)
    requires t.Has(x) && t.Has(y)
    ensures ClampedAdd(t, x, y) == t.Clamp(x + y)
  {
    CheckedAddIsExact(t, x, y);
  }

  lemma ClampedSubIsClamp(t: Int, x: int, y: int)
    requires t.Has(x) && t.Has(y)
    ensures ClampedSub(t, x, y) == t.Clamp(x - y)
  {
    CheckedSubIsExact(t, x, y);
  }

  lemma ClampedMulIsClamp(t: Int, x: int, y: int)
    requires t.Has(x) && t.Has(y)
    ensures ClampedMul(t, x, y) == t.Clamp(x * y)
  {
    CheckedMulIsExact(t, x, y);
    ProductSign(x, y);
    assert Abs(x) * Abs(y) >= 0;
  }

  lemma SaturatedAbsIsClamp(t: Int, x: int)
    requires t.Has(x)
    ensures SaturatedAbs(t, x) == t.Clamp(Abs(x))
  {
    UnsignedAbsIsAbs(t, x);
    Wrap(Abs(x) - (if t.Cast(UnsignedAbs(t, x)) < 0 then 1 else 0), 2 * t.Half());
  }
}

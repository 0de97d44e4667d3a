/**
  Rounding of time deltas (base/time/time_delta.h, base/time/time_delta.cc). A delta is a 64-bit
  count of microseconds whose two extreme values stand for infinity; sums and differences go
  through the clamped operations.
*/
module TimeDelta {
  import opened CheckedMath
  import opened Numbers

  const INT64 := Int(63, true)

  const MAX: int := INT64.Max()
  const MIN: int := INT64.Min()

  predicate IsDelta(d: int) { MIN <= d <= MAX }

  predicate IsInf(d: int) { d == MIN || d == MAX }

  /** C's `%`, which takes the sign of the dividend. */
  function Rem(a: int, b: int): int
    requires b != 0
  {
    if a < 0 then -((-a) % Abs(b)) else a % Abs(b)
  }

  function Modulo(d: int, a: int): int { if IsInf(d) || a == 0 || IsInf(a) then d else Rem(d, a) }

  /** The branchless absolute value: `mask` is all ones for a negative delta, and `v ^ ~0` is `-v - 1`. */
  function Magnitude(d: int): int {
    if d == MIN then MAX else
      var mask := if d < 0 then -1 else 0;
      if mask == -1 then -(d + mask) - 1 else d + mask
  }

  function Clamp(x: int): int { if x < MIN then MIN else if x > MAX then MAX else x }

  function Plus(d: int, other: int): int { if IsInf(other) then other else Clamp(d + other) }

  function Minus(d: int, other: int): int {
    if !IsInf(other) then Clamp(d - other) else if other < 0 then MAX else MIN
  }

  /** `Clamp` is what the clamped operations on 64-bit integers, which the operators call, compute. */
  lemma SumsAreClamped(d: int, other: int)
    requires IsDelta(d) && IsDelta(other) && !IsInf(other)
    ensures Plus(d, other) == ClampedAdd(INT64, d, other)
    ensures Minus(d, other) == ClampedSub(INT64, d, other)
  {
    ClampedAddIsClamp(INT64, d, other);
    ClampedSubIsClamp(INT64, d, other);
  }

  function CeilToMultiple(d: int, interval: int): int {
    if IsInf(d) || interval == 0 then d else
      var r := Modulo(d, interval);
      if d < 0 then Minus(d, r) else if r == 0 then d else Plus(Minus(d, r), Magnitude(interval))
  }

  function FloorToMultiple(d: int, interval: int): int {
    if IsInf(d) || interval == 0 then d else
      var r := Modulo(d, interval);
      if d >= 0 then Minus(d, r) else if r == 0 then d else Minus(Minus(d, r), Magnitude(interval))
  }

  /** The delta moved away from zero by half the interval. */
  function Shifted(d: int, interval: int): int {
    var half := Magnitude(interval) / 2;
    if d < 0 then Minus(d, half) else Plus(d, half)
  }

  function RoundToMultiple(d: int, interval: int): int {
    if IsInf(d) || interval == 0 then d
    else if IsInf(interval) then 0
    else if d < 0 then CeilToMultiple(Shifted(d, interval), interval)
    else FloorToMultiple(Shifted(d, interval), interval)
  }

  /** The greatest multiple of `m` that is not above `d`, and the least that is not below it. */
  ghost predicate IsFloor(f: int, d: int, m: int) { IsMultiple(f, m) && f <= d < f + m }

  ghost predicate IsCeil(c: int, d: int, m: int) { IsMultiple(c, m) && c - m < d <= c }

  ghost predicate IsMultiple(x: int, m: int) { exists q :: x == q * m }

  /** The nearest multiple, and of two equally near ones the one away from zero. */
  ghost predicate IsNearest(x: int, d: int, m: int) {
    && IsMultiple(x, m)
    && 2 * Abs(x - d) <= m
    && (2 * Abs(x - d) == m ==> Abs(x) > Abs(d))
  }

  lemma MagnitudeIsAbs(d: int)
    requires IsDelta(d) && d != MIN
    ensures Magnitude(d) == Abs(d)
  {
  }

  lemma RemMultiple(a: int, b: int)
    requires b != 0
    ensures IsMultiple(a - Rem(a, b), Abs(b)) && Abs(Rem(a, b)) < Abs(b)
    ensures a >= 0 ==> 0 <= Rem(a, b) <= a
    ensures a < 0 ==> a <= Rem(a, b) <= 0
  {
    QuotientMultiple(Abs(a), Abs(b));
    if a < 0 { NegatedMultiple(Abs(a) - Abs(a) % Abs(b), Abs(b)); }
  }

  lemma QuotientMultiple(n: int, m: int)
    requires n >= 0 && m > 0
    ensures IsMultiple(n - n % m, m) && 0 <= n % m <= n && n % m < m
  {
    assert n - n % m == (n / m) * m;
    assert n / m >= 0;
    FarMultiples(m, n / m);
  }

  lemma NegatedMultiple(x: int, m: int)
    requires IsMultiple(x, m)
    ensures IsMultiple(-x, m)
  {
    var q :| x == q * m;
    assert -x == (-q) * m;
  }

  lemma NextMultiple(x: int, m: int)
    requires IsMultiple(x, m)
    ensures IsMultiple(x + m, m) && IsMultiple(x - m, m)
  {
    var q :| x == q * m;
    assert x + m == (q + 1) * m && x - m == (q - 1) * m;
  }

  /** Two multiples of `m` less than `m` apart are equal. */
  lemma MultiplesApart(x: int, y: int, m: int)
    requires m > 0 && IsMultiple(x, m) && IsMultiple(y, m) && -m < x - y < m
    ensures x == y
  {
    var p, q :| x == p * m && y == q * m;
    assert (p - q) * m == x - y;
    FarMultiples(m, p - q);
    assert m * (p - q) == (p - q) * m;
  }

  ghost predicate Finite(d: int) { IsDelta(d) && !IsInf(d) }

  /** The ceiling is the least multiple that is not below the delta, or Max when that is not a delta. */
  lemma CeilIsCeil(d: int, interval: int, c: int)
    requires Finite(d) && Finite(interval) && interval != 0
    ensures IsCeil(c, d, Abs(interval)) ==> CeilToMultiple(d, interval) == if c <= MAX then c else MAX
  {
    if !IsCeil(c, d, Abs(interval)) { return; }
    var m, r := Abs(interval), Rem(d, interval);
    RemMultiple(d, interval);
    MagnitudeIsAbs(interval);
    NextMultiple(d - r, m);
    if d < 0 || r == 0 {
      MultiplesApart(c, d - r, m);
    } else {
      MultiplesApart(c, d - r + m, m);
    }
  }

  /** The multiples of an infinite interval. */
  predicate IsFarMultiple(x: int) { x == 0 || x == MIN || x == MAX }

  /**
    Where infinity or zero is involved: an infinite delta, and any delta with interval zero, stays as
    it is; with an infinite interval the ceiling is the least of zero and the two limits that is not
    below the delta, the floor the greatest that is not above it, and rounding gives zero.
  */
  lemma RoundingAtTheLimits(d: int, interval: int, x: int)
    requires IsDelta(d) && IsDelta(interval)
    ensures IsInf(d) || interval == 0 ==>
      CeilToMultiple(d, interval) == FloorToMultiple(d, interval) == RoundToMultiple(d, interval) == d
    ensures Finite(d) && IsInf(interval) ==>
      && IsFarMultiple(CeilToMultiple(d, interval)) && d <= CeilToMultiple(d, interval)
      && (IsFarMultiple(x) && d <= x ==> CeilToMultiple(d, interval) <= x)
      && IsFarMultiple(FloorToMultiple(d, interval)) && FloorToMultiple(d, interval) <= d
      && (IsFarMultiple(x) && x <= d ==> x <= FloorToMultiple(d, interval))
      && RoundToMultiple(d, interval) == 0
  {
  }

  /**
    The floor is the greatest multiple that is not above the delta, or Min when that is not a
    delta: if and only if the interval is not the least finite delta, whose magnitude is taken for
    infinity, or the delta needs no rounding down.
  */
  lemma FloorIsFloorIff(d: int, interval: int, f: int)
    requires Finite(d) && Finite(interval) && interval != 0
    ensures IsFloor(f, d, Abs(interval)) ==>
      (FloorToMultiple(d, interval) == (if f >= MIN then f else MIN) <==> !(interval == MIN + 1 && MIN + 1 < d < 0))
  {
    if !IsFloor(f, d, Abs(interval)) { return; }
    if interval == MIN + 1 {
      WidestFloor(d, f);
    } else {
      FloorIsFloor(d, interval, f);
    }
  }

  lemma FloorIsFloor(d: int, interval: int, f: int)
    requires Finite(d) && Finite(interval) && interval != 0 && interval != MIN + 1 && IsFloor(f, d, Abs(interval))
    ensures FloorToMultiple(d, interval) == if f >= MIN then f else MIN
  {
    var m, r := Abs(interval), Rem(d, interval);
    RemMultiple(d, interval);
    MagnitudeIsAbs(interval);
    NextMultiple(d - r, m);
    if d >= 0 || r == 0 {
      MultiplesApart(f, d - r, m);
    } else {
      MultiplesApart(f, d - r - m, m);
    }
  }

  lemma SmallMultiples(m: int)
    ensures IsMultiple(0, m) && IsMultiple(-m, m)
  {
    assert 0 == 0 * m && -m == (-1) * m;
  }

  /** The remainder by an interval of greater magnitude is the delta itself. */
  lemma RemOfSmaller(d: int, m: int)
    requires -m < d < m
    ensures Rem(d, m) == Rem(d, -m) == d
  {
    RemMultiple(d, m);
    SmallMultiples(m);
    MultiplesApart(d - Rem(d, m), 0, m);
  }

  /** Under the least finite interval a negative delta rounds down to Min, one below the multiple. */
  lemma WidestFloor(d: int, f: int)
    requires Finite(d) && IsFloor(f, d, MAX)
    ensures f == if d >= 0 then 0 else MIN + 1
    ensures FloorToMultiple(d, MIN + 1) == if MIN + 1 < d < 0 then MIN else f
  {
    SmallMultiples(MAX);
    MultiplesApart(f, if d >= 0 then 0 else -MAX, MAX);
    assert MIN + 1 == -MAX;
    if d == -MAX {
      RemOfSame(MAX);
    } else {
      RemOfSmaller(d, MAX);
    }
  }

  lemma RemOfSame(m: int)
    requires m > 0
    ensures Rem(-m, -m) == 0
  {
  }

  function HalfOf(interval: int): int { Abs(interval) / 2 }

  /** Adding half the interval, away from zero, reaches a limit. */
  predicate HalfReachesLimit(d: int, interval: int) {
    if d < 0 then d - HalfOf(interval) <= MIN else d + HalfOf(interval) >= MAX
  }

  /** Rounding gives the nearest multiple, ties away from zero, unless it runs into a limit and stays there. */
  lemma RoundIsNearest(d: int, interval: int)
    requires Finite(d) && Finite(interval) && interval != 0
    ensures if HalfReachesLimit(d, interval)
            then RoundToMultiple(d, interval) == if d < 0 then MIN else MAX
            else IsNearest(RoundToMultiple(d, interval), d, Abs(interval))
  {
    ShiftedIs(d, interval);
    if !HalfReachesLimit(d, interval) {
      var t := Shifted(d, interval);
      TowardsZero(t, interval);
      RemMultiple(t, interval);
      NearestByHalf(d, Abs(interval), t - Rem(t, interval));
    }
  }

  lemma ShiftedIs(d: int, interval: int)
    requires Finite(d) && Finite(interval) && interval != 0
    ensures var t := Shifted(d, interval);
      && (d < 0 <==> t < 0)
      && (if HalfReachesLimit(d, interval) then t == if d < 0 then MIN else MAX
          else Finite(t) && t == if d < 0 then d - HalfOf(interval) else d + HalfOf(interval))
  {
    MagnitudeIsAbs(interval);
    HalfIsSmall(Abs(interval));
  }

  lemma HalfIsSmall(m: int)
    requires m > 0
    ensures 0 <= m / 2 < m && 2 * (m / 2) <= m <= 2 * (m / 2) + 1
  {
  }

  /** Where no magnitude is added, floor and ceiling take the remainder off. */
  lemma TowardsZero(t: int, interval: int)
    requires Finite(t) && Finite(interval) && interval != 0
    ensures t >= 0 ==> FloorToMultiple(t, interval) == t - Rem(t, interval)
    ensures t < 0 ==> CeilToMultiple(t, interval) == t - Rem(t, interval)
  {
    RemMultiple(t, interval);
  }

  lemma NearestByHalf(d: int, m: int, x: int)
    requires m > 0 && IsMultiple(x, m)
    requires if d < 0 then x - m < d - m / 2 <= x <= 0 else 0 <= x <= d + m / 2 < x + m
    ensures IsNearest(x, d, m)
  {
    HalfIsSmall(m);
  }

  /** No multiple is nearer than the one `IsNearest` describes, and an equally near one is closer to zero. */
  lemma NearestBeatsAll(x: int, d: int, m: int, y: int)
    requires m > 0 && IsNearest(x, d, m) && IsMultiple(y, m) && y != x
    ensures Abs(x - d) <= Abs(y - d)
    ensures Abs(x - d) == Abs(y - d) ==> Abs(x) > Abs(y)
  {
    if -m < x - y < m {
      MultiplesApart(x, y, m);
    }
  }

  /**
    Rounding gives the nearest multiple, clamped to the limits, if and only if adding half the
    interval does not reach a limit or that multiple lies at or beyond one as well.
  */
  lemma RoundIsNearestIff(d: int, interval: int, x: int)
    requires Finite(d) && Finite(interval) && interval != 0
    ensures IsNearest(x, d, Abs(interval)) ==>
      (RoundToMultiple(d, interval) == Clamp(x) <==> !(HalfReachesLimit(d, interval) && MIN < x < MAX))
  {
    if !IsNearest(x, d, Abs(interval)) { return; }
    RoundIsNearest(d, interval);
    if HalfReachesLimit(d, interval) {
      NearestKeepsSign(x, d, Abs(interval));
    } else {
      NearestIsOne(x, RoundToMultiple(d, interval), d, Abs(interval));
      RoundIsDelta(d, interval);
    }
  }

  lemma NearestIsOne(x: int, y: int, d: int, m: int)
    requires m > 0 && IsNearest(x, d, m) && IsNearest(y, d, m)
    ensures x == y
  {
    if x != y {
      NearestBeatsAll(x, d, m, y);
      NearestBeatsAll(y, d, m, x);
    }
  }

  lemma NearestKeepsSign(x: int, d: int, m: int)
    requires m > 0 && IsNearest(x, d, m)
    ensures if d < 0 then x <= 0 else x >= 0
  {
    SmallMultiples(m);
    if x != 0 { NearestBeatsAll(x, d, m, 0); }
  }

  lemma RoundIsDelta(d: int, interval: int)
    requires IsDelta(d)
    ensures IsDelta(RoundToMultiple(d, interval))
  {
  }

  /** It happens: the greatest finite even delta, rounded to a multiple of two, becomes infinite. */
  lemma RoundCanOverflow()
    ensures IsNearest(MAX - 1, MAX - 1, 2) && RoundToMultiple(MAX - 1, 2) == MAX
  {
    EvenPow2(63);
    NextMultiple(INT64.Half(), 2);
    RoundIsNearest(MAX - 1, 2);
  }

  lemma EvenPow2(n: nat)
    requires n > 0
    ensures Pow2(n) >= 2 && IsMultiple(Pow2(n), 2)
  {
    assert Pow2(n) == Pow2(n - 1) * 2;
  }
}

/** Exact integer arithmetic on money amounts: BigInt division and the three
    roundings that every fee and price conversion is built from. */
module Calculator {
  function Max(x: int, y: int): int {
    if x >= y then x else y
  }

  function Min(x: int, y: int): int {
    if x <= y then x else y
  }

  /** BigInt `/`: truncates toward zero. A zero divisor throws in the source. */
  function Quotient(a: int, b: int): int
    requires b != 0
  {
    if a >= 0 then a / b else -((-a) / b)
  }

  /** BigInt `%`: takes the sign of the dividend. */
  function Remainder(a: int, b: int): int
    requires b != 0
  {
    if a >= 0 then a % b else -((-a) % b)
  }

  function DivRound(a: int, b: int): int
    requires b != 0
  {
    if Remainder(a, b) > Quotient(b, 2) then Quotient(a, b) + 1 else Quotient(a, b)
  }

  function DivFloor(a: int, b: int): int
    requires b != 0
  {
    Quotient(a, b)
  }

  function DivCeil(a: int, b: int): int
    requires b != 0
  {
    if Remainder(a, b) > 0 then Quotient(a, b) + 1 else Quotient(a, b)
  }

  function MulBasisPoints(amount: int, basisPoints: int): int {
    DivRound(amount * basisPoints, 10000)
  }

  // ----- what the roundings mean

  /** `r` is the integer nearest to a/b, the lower one of two equally near. */
  ghost predicate IsNearest(a: int, b: int, r: int) {
    -b < 2 * (a - r * b) <= b
  }

  ghost predicate IsFloor(a: int, b: int, r: int) {
    r * b <= a < r * b + b
  }

  ghost predicate IsCeil(a: int, b: int, r: int) {
    r * b - b < a <= r * b
  }

  lemma QuotientSplits(a: int, b: int)
    requires a >= 0 && b > 0
    ensures a == Quotient(a, b) * b + Remainder(a, b)
    ensures 0 <= Remainder(a, b) < b && 0 <= Quotient(a, b)
  {
    var q, m := a / b, a % b;
    assert a == q * b + m;
    CompareMultiples(0, q, b);
  }

  lemma MulLe(a: int, b: int, c: int)
    requires a <= b && 0 <= c
    ensures a * c <= b * c
  {
  }

  /** A multiple of `b` strictly between -b and b is zero. */
  lemma OnlyZeroMultiple(k: int, b: int)
    requires b > 0 && -b < k * b < b
    ensures k == 0
  {
    if k >= 1 { MulLe(1, k, b); } else if k <= -1 { MulLe(k, -1, b); }
  }

  /** divRound picks the nearest integer, and nothing else does. */
  lemma DivRoundIsNearest(a: int, b: int, r: int)
    requires a >= 0 && b > 0
    ensures r == DivRound(a, b) <==> IsNearest(a, b, r)
    ensures DivRound(a, b) >= 0
  {
    QuotientSplits(a, b);
    var d := DivRound(a, b);
    assert (Quotient(a, b) + 1) * b == Quotient(a, b) * b + b;
    assert IsNearest(a, b, d);
    if IsNearest(a, b, r) {
      assert (r - d) * b == r * b - d * b;
      OnlyZeroMultiple(r - d, b);
    }
  }

  lemma DivFloorIsFloor(a: int, b: int, r: int)
    requires a >= 0 && b > 0
    ensures r == DivFloor(a, b) <==> IsFloor(a, b, r)
    ensures DivFloor(a, b) >= 0
  {
    QuotientSplits(a, b);
    if IsFloor(a, b, r) {
      assert (r - DivFloor(a, b)) * b == r * b - DivFloor(a, b) * b;
      OnlyZeroMultiple(r - DivFloor(a, b), b);
    }
  }

  lemma DivCeilIsCeil(a: int, b: int, r: int)
    requires a >= 0 && b > 0
    ensures r == DivCeil(a, b) <==> IsCeil(a, b, r)
    ensures DivCeil(a, b) >= 0
  {
    QuotientSplits(a, b);
    var d := DivCeil(a, b);
    assert (Quotient(a, b) + 1) * b == Quotient(a, b) * b + b;
    assert IsCeil(a, b, d);
    if IsCeil(a, b, r) {
      assert (r - d) * b == r * b - d * b;
      OnlyZeroMultiple(r - d, b);
    }
  }

  /** If r*b stays below s*b + b then r <= s: how the rounding bounds are compared. */
  lemma CompareMultiples(r: int, s: int, b: int)
    requires b > 0 && r * b < s * b + b
    ensures r <= s
  {
    assert (s + 1) * b == s * b + b;
    if r >= s + 1 { MulLe(s + 1, r, b); }
  }

  /** floor <= rounded <= ceil, and all three are monotone in the dividend. */
  lemma RoundingsOrdered(a: int, a': int, b: int)
    requires 0 <= a <= a' && b > 0
    ensures DivFloor(a, b) <= DivRound(a, b) <= DivCeil(a, b)
    ensures DivFloor(a, b) <= DivFloor(a', b)
    ensures DivRound(a, b) <= DivRound(a', b)
    ensures DivCeil(a, b) <= DivCeil(a', b)
  {
    var f, r, c := DivFloor(a, b), DivRound(a, b), DivCeil(a, b);
    var f', r', c' := DivFloor(a', b), DivRound(a', b), DivCeil(a', b);
    DivFloorIsFloor(a, b, f); DivRoundIsNearest(a, b, r); DivCeilIsCeil(a, b, c);
    DivFloorIsFloor(a', b, f'); DivRoundIsNearest(a', b, r'); DivCeilIsCeil(a', b, c');
    CompareMultiples(f, r, b); CompareMultiples(r, c, b);
    CompareMultiples(f, f', b); CompareMultiples(r, r', b); CompareMultiples(c, c', b);
  }
}

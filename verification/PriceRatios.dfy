/** Conversions between sats and cents at the price of one payment. */
module PriceRatios {
  import opened Calculator
  import opened Outcomes

  /** The same money in both currencies. */
  datatype Amounts = Amounts(btc: int, usd: int)

  /** `usd` cents are worth `btc` sats. */
  datatype PriceRatio = PriceRatio(usd: int, btc: int) {
    ghost predicate Valid() {
      usd > 0 && btc > 0
    }
  }

  function MakePriceRatio(usd: int, btc: int): (r: Outcome<PriceRatio>)
    ensures r.Ok? && usd >= 0 && btc >= 0 ==> r.value.Valid()
    ensures r.Err? <==> usd == 0 || btc == 0
  {
    if usd == 0 || btc == 0 then Err(InvalidZeroAmountPriceRatioInput) else Ok(PriceRatio(usd, btc))
  }

  /** Rounded x*num/den, except that a non-zero amount never becomes zero. */
  function Scale(x: int, num: int, den: int): int
    requires den != 0
  {
    if x == 0 then 0
    else if DivRound(x * num, den) == 0 then 1
    else DivRound(x * num, den)
  }

  function ConvertFromUsd(p: PriceRatio, cents: int): int
    requires p.usd != 0
  {
    Scale(cents, p.btc, p.usd)
  }

  function ConvertFromBtc(p: PriceRatio, sats: int): int
    requires p.btc != 0
  {
    Scale(sats, p.usd, p.btc)
  }

  function ConvertFromBtcToFloor(p: PriceRatio, sats: int): int
    requires p.btc != 0
  {
    DivFloor(sats * p.usd, p.btc)
  }

  function ConvertFromBtcToCeil(p: PriceRatio, sats: int): int
    requires p.btc != 0
  {
    DivCeil(sats * p.usd, p.btc)
  }

  // ----- one conversion

  lemma ProductNonNegative(x: int, y: int)
    requires x >= 0 && y >= 0
    ensures x * y >= 0
  {
  }

  /** The result is the nearest integer, or 1 where the nearest integer is 0. */
  lemma ScaleIsNearestOrOne(x: int, num: int, den: int)
    requires x > 0 && num > 0 && den > 0
    ensures Scale(x, num, den) >= 1
    ensures IsNearest(x * num, den, Scale(x, num, den))
         || (Scale(x, num, den) == 1 && 2 * (x * num) <= den)
    ensures num >= den ==> IsNearest(x * num, den, Scale(x, num, den))
  {
    ProductNonNegative(x, num);
    DivRoundIsNearest(x * num, den, DivRound(x * num, den));
    MulLe(1, x, num);
  }

  lemma ScaleMonotone(x: int, x': int, num: int, den: int)
    requires 0 <= x <= x' && num > 0 && den > 0
    ensures 0 <= Scale(x, num, den) <= Scale(x', num, den)
  {
    ProductNonNegative(x, num);
    MulLe(x, x', num);
    RoundingsOrdered(x * num, x' * num, den);
    DivRoundIsNearest(x * num, den, DivRound(x * num, den));
  }

  /** Conversions of the same sats are ordered floor <= rounded <= ceil, the clamp
      to one cent included, and each is monotone. */
  lemma ConversionsOrdered(p: PriceRatio, sats: int, sats': int)
    requires p.Valid() && 0 <= sats <= sats'
    ensures 0 <= ConvertFromBtcToFloor(p, sats) <= ConvertFromBtc(p, sats) <= ConvertFromBtcToCeil(p, sats)
    ensures ConvertFromBtcToFloor(p, sats) <= ConvertFromBtcToFloor(p, sats')
    ensures ConvertFromBtc(p, sats) <= ConvertFromBtc(p, sats')
    ensures ConvertFromBtcToCeil(p, sats) <= ConvertFromBtcToCeil(p, sats')
    ensures sats > 0 ==> ConvertFromBtcToCeil(p, sats) >= 1
  {
    ProductNonNegative(sats, p.usd);
    MulLe(sats, sats', p.usd);
    RoundingsOrdered(sats * p.usd, sats' * p.usd, p.btc);
    DivFloorIsFloor(sats * p.usd, p.btc, DivFloor(sats * p.usd, p.btc));
    DivCeilIsCeil(sats * p.usd, p.btc, DivCeil(sats * p.usd, p.btc));
    if sats > 0 {
      MulLe(1, sats, p.usd);
      CompareMultiples(1, DivCeil(sats * p.usd, p.btc), p.btc);
    }
    ScaleMonotone(sats, sats', p.usd, p.btc);
  }

  // ----- there and back again

  /** Going to the finer unit and back is the identity. */
  lemma ScaleBackExact(x: int, num: int, den: int)
    requires x >= 0 && num >= den > 0
    ensures Scale(Scale(x, num, den), den, num) == x
  {
    if x > 0 {
      var y := Scale(x, num, den);
      ScaleIsNearestOrOne(x, num, den);
      ProductNonNegative(y, den);
      if num == den {
        assert (x - y) * den == x * num - y * den;
        OnlyZeroMultiple(x - y, den);
      }
      assert IsNearest(y * den, num, x);
      DivRoundIsNearest(y * den, num, x);
    }
  }

  /** x and x' differ by at most den/num, the worth of one unit of the other currency. */
  ghost predicate MovedWithin(x: int, x': int, num: int, den: int) {
    -den <= (x' - x) * num <= den
  }

  lemma CoarseTripWithinOneUnit(x: int, y: int, z: int, num: int, den: int)
    requires x >= 1 && z >= 1 && 0 < num < den
    requires IsNearest(x * num, den, y) || (y == 1 && 2 * (x * num) <= den)
    requires IsNearest(y * den, num, z)
    ensures MovedWithin(x, z, num, den)
  {
    var xn, yd, zn := x * num, y * den, z * num;
    MulLe(1, x, num);
    MulLe(1, z, num);
    assert (z - x) * num == zn - xn;
  }

  /** There and back moves an amount by at most one unit of the other currency,
      whichever unit is the finer one. */
  lemma ScaleBackWithinOneUnit(x: int, num: int, den: int)
    requires x >= 0 && num > 0 && den > 0
    ensures MovedWithin(x, Scale(Scale(x, num, den), den, num), num, den)
  {
    if num >= den || x == 0 {
      if num >= den { ScaleBackExact(x, num, den); }
      assert MovedWithin(x, x, num, den);
    } else {
      var y := Scale(x, num, den);
      ScaleIsNearestOrOne(x, num, den);
      ScaleIsNearestOrOne(y, den, num);
      CoarseTripWithinOneUnit(x, y, Scale(y, den, num), num, den);
    }
  }

  ghost predicate RoundTripsExactly(num: int, den: int)
    requires num > 0 && den > 0
  {
    forall x: nat :: Scale(Scale(x, num, den), den, num) == x
  }

  /** If nothing is lost on the way then x cents need at least x sats. */
  lemma {:induction false} ExactTripsNeedRoom(x: nat, num: int, den: int)
    requires num > 0 && den > 0 && RoundTripsExactly(num, den)
    ensures Scale(x, num, den) >= x
  {
    if x > 0 {
      ExactTripsNeedRoom(x - 1, num, den);
      ScaleMonotone(x - 1, x, num, den);
      assert Scale(Scale(x, num, den), den, num) == x;
      assert Scale(Scale(x - 1, num, den), den, num) == x - 1;
    }
  }

  /** cents -> sats -> cents loses nothing for every amount exactly when a cent is
      worth at least one sat, the sat-cent parity that the amount caps assume. */
  lemma CentsRoundTripExactIffParity(p: PriceRatio)
    requires p.Valid()
    ensures (forall cents: nat :: ConvertFromBtc(p, ConvertFromUsd(p, cents)) == cents) <==> p.usd <= p.btc
  {
    if p.usd <= p.btc {
      forall cents: nat ensures ConvertFromBtc(p, ConvertFromUsd(p, cents)) == cents {
        ScaleBackExact(cents, p.btc, p.usd);
      }
    } else if forall cents: nat :: ConvertFromBtc(p, ConvertFromUsd(p, cents)) == cents {
      forall x: nat ensures Scale(Scale(x, p.btc, p.usd), p.usd, p.btc) == x {
        assert ConvertFromBtc(p, ConvertFromUsd(p, x)) == x;
      }
      ExactTripsNeedRoom(p.usd, p.btc, p.usd);
      ProductNonNegative(p.usd, p.btc);
      DivRoundIsNearest(p.usd * p.btc, p.usd, p.btc);
    }
  }

  /** sats -> cents -> sats moves no amount by more than one cent's worth, at any price. */
  lemma SatsRoundTripWithinOneCent(p: PriceRatio, sats: nat)
    requires p.Valid()
    ensures MovedWithin(sats, ConvertFromUsd(p, ConvertFromBtc(p, sats)), p.usd, p.btc)
  {
    ScaleBackWithinOneUnit(sats, p.usd, p.btc);
  }
}

/** Lightning fee caps, and the refund of the part of a prepaid fee that was not used. */
module Fees {
  import opened Calculator
  import opened Outcomes
  import opened PriceRatios

  const FEECAP_BASIS_POINTS := 50

  function MaxProtocolFee(amount: int): int {
    if amount == 0 then amount
    else if MulBasisPoints(amount, FEECAP_BASIS_POINTS) == 0 then 1
    else MulBasisPoints(amount, FEECAP_BASIS_POINTS)
  }

  /** Math.ceil of the fee that the route quotes. */
  function FeeFromRawRoute(fee: real): int {
    -((-fee).Floor)
  }

  function GetReimbursement(prepaid: Amounts, p: PriceRatio, actualFee: int): Outcome<Amounts>
    requires p.btc != 0
  {
    var difference := prepaid.btc - actualFee;
    if difference < 0 then Err(FeeDifference)
    else Ok(Amounts(difference,
                    if actualFee == 0 then ConvertFromBtc(p, difference)
                    else ConvertFromBtcToFloor(p, difference)))
  }

  /** The cap is half a percent to the nearest unit, never below one unit and never
      above the payment itself. */
  lemma MaxProtocolFeeIsHalfPercent(amount: int)
    requires amount >= 0
    ensures amount == 0 ==> MaxProtocolFee(amount) == 0
    ensures amount > 0 ==>
              && 1 <= MaxProtocolFee(amount) <= amount
              && (IsNearest(amount, 200, MaxProtocolFee(amount)) || (MaxProtocolFee(amount) == 1 && amount <= 100))
  {
    DivRoundIsNearest(amount * 50, 10000, MulBasisPoints(amount, FEECAP_BASIS_POINTS));
  }

  // ----- flows whose cent fee is the ceiling of the sat fee

  /** The refund exists exactly when the fee was not exceeded, and never gives back
      more than was prepaid, in sats or in cents. */
  lemma ReimbursementWithinCeilFee(p: PriceRatio, satsFee: nat, actualFee: nat)
    requires p.Valid()
    ensures var r := GetReimbursement(Amounts(satsFee, ConvertFromBtcToCeil(p, satsFee)), p, actualFee);
            && (r.Ok? <==> actualFee <= satsFee)
            && (r.Ok? ==> r.value.btc == satsFee - actualFee)
            && (r.Ok? ==> 0 <= r.value.usd <= ConvertFromBtcToCeil(p, satsFee))
  {
    if actualFee <= satsFee {
      ConversionsOrdered(p, satsFee - actualFee, satsFee);
    }
  }

  /** `kept` cents are worth at least `sats` and less than two cents more. */
  ghost predicate Covers(p: PriceRatio, kept: int, sats: int) {
    sats * p.usd <= kept * p.btc < sats * p.usd + 2 * p.btc
  }

  /** The cents kept pay for the actual fee at the payment's own price, and exceed it
      by less than two cents. */
  lemma KeptCentsCoverActualFee(p: PriceRatio, satsFee: nat, actualFee: nat)
    requires p.Valid() && actualFee <= satsFee
    ensures var cap := ConvertFromBtcToCeil(p, satsFee);
            Covers(p, cap - GetReimbursement(Amounts(satsFee, cap), p, actualFee).value.usd, actualFee)
  {
    CeilMinusFloorCovers(p, satsFee, actualFee);
    if actualFee == 0 {
      ConversionsOrdered(p, satsFee, satsFee);
      CoversBelow(p, ConvertFromBtcToCeil(p, satsFee) - ConvertFromBtcToFloor(p, satsFee),
                  ConvertFromBtcToCeil(p, satsFee) - ConvertFromBtc(p, satsFee));
    }
  }

  lemma CeilMinusFloorCovers(p: PriceRatio, satsFee: nat, actualFee: nat)
    requires p.Valid() && actualFee <= satsFee
    ensures Covers(p, ConvertFromBtcToCeil(p, satsFee) - ConvertFromBtcToFloor(p, satsFee - actualFee), actualFee)
  {
    var rest := satsFee - actualFee;
    var cap, back := ConvertFromBtcToCeil(p, satsFee), ConvertFromBtcToFloor(p, rest);
    ProductNonNegative(satsFee, p.usd);
    ProductNonNegative(rest, p.usd);
    DivCeilIsCeil(satsFee * p.usd, p.btc, cap);
    DivFloorIsFloor(rest * p.usd, p.btc, back);
    Distribute(satsFee, actualFee, cap, back, p);
  }

  lemma Distribute(satsFee: int, actualFee: int, cap: int, back: int, p: PriceRatio)
    requires p.Valid() && IsCeil(satsFee * p.usd, p.btc, cap) && IsFloor((satsFee - actualFee) * p.usd, p.btc, back)
    ensures Covers(p, cap - back, actualFee)
  {
    assert (satsFee - actualFee) * p.usd == satsFee * p.usd - actualFee * p.usd;
    assert (cap - back) * p.btc == cap * p.btc - back * p.btc;
  }

  /** With no actual fee to pay, keeping less is still enough. */
  lemma CoversBelow(p: PriceRatio, kept: int, kept': int)
    requires p.Valid() && Covers(p, kept, 0) && 0 <= kept' <= kept
    ensures Covers(p, kept', 0)
  {
    MulLe(0, kept', p.btc);
    MulLe(kept', kept, p.btc);
  }

  // ----- flows that start from a cent amount

  /** Where the cent fee came first, the refund exceeds it exactly when nothing of
      the fee was used and the sat fee overshoots it by more than half a cent. */
  lemma UsdFeeReimbursementExceedsIff(p: PriceRatio, centsFee: nat, actualFee: nat)
    requires p.Valid() && actualFee <= ConvertFromUsd(p, centsFee)
    ensures var satsFee := ConvertFromUsd(p, centsFee);
            var back := GetReimbursement(Amounts(satsFee, centsFee), p, actualFee).value;
            && back.btc == satsFee - actualFee
            && back.usd >= 0
            && (back.usd > centsFee <==> actualFee == 0 && 2 * (satsFee * p.usd - centsFee * p.btc) > p.btc)
  {
    var satsFee := ConvertFromUsd(p, centsFee);
    if centsFee > 0 {
      ScaleIsNearestOrOne(centsFee, p.btc, p.usd);
      ConversionsOrdered(p, satsFee - actualFee, satsFee);
      if actualFee == 0 {
        ScaleIsNearestOrOne(satsFee, p.usd, p.btc);
        RefundAgainstFee(ConvertFromBtc(p, satsFee), centsFee, satsFee * p.usd, p.btc);
      } else {
        PartialRefundStaysBelow(p, centsFee, satsFee, actualFee);
      }
    }
  }

  lemma RefundAgainstFee(back: int, centsFee: int, worth: int, btc: int)
    requires btc > 0 && centsFee >= 1
    requires IsNearest(worth, btc, back) || (back == 1 && 2 * worth <= btc)
    ensures back > centsFee <==> 2 * (worth - centsFee * btc) > btc
  {
    if back > centsFee {
      MulLe(centsFee + 1, back, btc);
    } else {
      MulLe(back, centsFee, btc);
    }
    MulLe(1, centsFee, btc);
    assert (centsFee + 1) * btc == centsFee * btc + btc;
  }

  lemma PartialRefundStaysBelow(p: PriceRatio, centsFee: int, satsFee: int, actualFee: int)
    requires p.Valid() && centsFee >= 1 && 1 <= actualFee <= satsFee
    requires IsNearest(centsFee * p.btc, p.usd, satsFee) || satsFee == 1
    ensures ConvertFromBtcToFloor(p, satsFee - actualFee) <= centsFee
  {
    var rest := satsFee - actualFee;
    var floor := ConvertFromBtcToFloor(p, rest);
    ProductNonNegative(rest, p.usd);
    DivFloorIsFloor(rest * p.usd, p.btc, floor);
    MulLe(rest, satsFee - 1, p.usd);
    assert (satsFee - 1) * p.usd == satsFee * p.usd - p.usd;
    ProductNonNegative(centsFee, p.btc);
    CompareMultiples(floor, centsFee, p.btc);
  }

  lemma ReturnBounded(x: int, back: int, num: int, den: int)
    requires num >= 1 && MovedWithin(x, back, num, den) && den >= 0
    ensures back <= x + den
  {
    if back > x { MulLe(1, num, back - x); }
  }

  /** At every price the refund is less than the fee and the payment together. */
  lemma UsdFeeReimbursementWithinTotal(p: PriceRatio, centsFee: nat, actualFee: nat)
    requires p.Valid() && actualFee <= ConvertFromUsd(p, centsFee)
    ensures var satsFee := ConvertFromUsd(p, centsFee);
            GetReimbursement(Amounts(satsFee, centsFee), p, actualFee).value.usd <= p.usd + centsFee
  {
    UsdFeeReimbursementExceedsIff(p, centsFee, actualFee);
    if actualFee == 0 {
      ScaleBackWithinOneUnit(centsFee, p.btc, p.usd);
      ReturnBounded(centsFee, ConvertFromBtc(p, ConvertFromUsd(p, centsFee)), p.btc, p.usd);
    }
  }

  /** At sat-cent parity or below, no flow is refunded more than it prepaid. */
  lemma UsdFeeReimbursementWithinFee(p: PriceRatio, centsFee: nat, actualFee: nat)
    requires p.Valid() && p.usd <= p.btc && actualFee <= ConvertFromUsd(p, centsFee)
    ensures var satsFee := ConvertFromUsd(p, centsFee);
            GetReimbursement(Amounts(satsFee, centsFee), p, actualFee).value.usd <= centsFee
  {
    UsdFeeReimbursementExceedsIff(p, centsFee, actualFee);
    if centsFee > 0 { ScaleIsNearestOrOne(centsFee, p.btc, p.usd); }
  }
}

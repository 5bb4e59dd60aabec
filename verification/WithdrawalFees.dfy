/** The bank's fee on an on-chain withdrawal: a share of the part of the amount that
    takes the account's imbalance above a threshold, but at least a minimum. */
module WithdrawalFees {
  import opened Calculator
  import opened PriceRatios

  datatype Method = Flat | ProportionalOnImbalance

  /** Sats in and out over the lookback window. */
  datatype Volumes = Volumes(lnIn: int, lnOut: int, onChainIn: int, onChainOut: int)

  function SwapOutImbalance(method_: Method, v: Volumes): int {
    if method_ == Flat then 0 else (v.lnIn - v.lnOut) - (v.onChainIn - v.onChainOut)
  }

  /** The fee ratio is num/den. */
  datatype FeeConfig = FeeConfig(threshold: int, num: nat, den: nat, minBankFee: nat)

  function BaseAmount(c: FeeConfig, imbalance: int, amount: nat): int {
    Max(Min(imbalance - c.threshold + amount, amount), 0)
  }

  function BankFee(c: FeeConfig, imbalance: int, amount: nat): int
    requires c.den > 0
  {
    Max(c.minBankFee, DivCeil(BaseAmount(c, imbalance, amount) * c.num, c.den))
  }

  // ----- the base amount telescopes

  /** How far an imbalance is above the threshold. */
  function Excess(c: FeeConfig, imbalance: int): int {
    Max(imbalance - c.threshold, 0)
  }

  /** The base is the growth of the excess, and grows with the imbalance. */
  lemma BaseIsExcessGrowth(c: FeeConfig, imbalance: int, seen: int, amount: nat)
    requires seen >= imbalance
    ensures BaseAmount(c, imbalance, amount) == Excess(c, imbalance + amount) - Excess(c, imbalance)
    ensures 0 <= BaseAmount(c, imbalance, amount) <= BaseAmount(c, seen, amount) <= amount
  {
  }

  /** In plain terms: below the threshold nothing of a withdrawal is charged for, above it
      all, and in between what lies above. */
  lemma BaseByThreshold(c: FeeConfig, imbalance: int, amount: nat)
    ensures imbalance + amount <= c.threshold ==> BaseAmount(c, imbalance, amount) == 0
    ensures imbalance >= c.threshold ==> BaseAmount(c, imbalance, amount) == amount
    ensures imbalance <= c.threshold <= imbalance + amount ==>
              BaseAmount(c, imbalance, amount) == imbalance + amount - c.threshold
  {
  }

  /** The bank fee is the minimum, or the least number of sats that covers the ratio. */
  lemma BankFeeIsLeast(c: FeeConfig, imbalance: int, amount: nat)
    requires c.den > 0
    ensures var fee, base := BankFee(c, imbalance, amount), BaseAmount(c, imbalance, amount);
            && fee >= c.minBankFee && fee * c.den >= base * c.num
            && (fee == c.minBankFee || (fee - 1) * c.den < base * c.num)
  {
    var base := BaseAmount(c, imbalance, amount);
    BaseIsExcessGrowth(c, imbalance, imbalance, amount);
    ProductNonNegative(base, c.num);
    var up := DivCeil(base * c.num, c.den);
    DivCeilIsCeil(base * c.num, c.den, up);
    if c.minBankFee > up { MulLe(up, c.minBankFee, c.den); }
  }

  // ----- the volumes

  /** Sats that come in over Lightning and sats that leave on chain raise the imbalance by
      their amount; the other two directions lower it. The flat method sees none. */
  lemma ImbalanceFollowsVolumes(v: Volumes, x: int)
    ensures SwapOutImbalance(ProportionalOnImbalance, Volumes(0, 0, 0, 0)) == 0
    ensures var imbalance := SwapOutImbalance(ProportionalOnImbalance, v);
            && SwapOutImbalance(ProportionalOnImbalance, v.(lnIn := v.lnIn + x)) == imbalance + x
            && SwapOutImbalance(ProportionalOnImbalance, v.(onChainOut := v.onChainOut + x)) == imbalance + x
            && SwapOutImbalance(ProportionalOnImbalance, v.(lnOut := v.lnOut + x)) == imbalance - x
            && SwapOutImbalance(ProportionalOnImbalance, v.(onChainIn := v.onChainIn + x)) == imbalance - x
    ensures SwapOutImbalance(Flat, v) == 0
  {
  }

  /** What a withdrawal costs with the volumes of the wallet. */
  function WithdrawalFee(method_: Method, c: FeeConfig, v: Volumes, amount: nat): int
    requires c.den > 0
  {
    BankFee(c, SwapOutImbalance(method_, v), amount)
  }

  lemma FeeRisesWithImbalance(c: FeeConfig, imbalance: int, seen: int, amount: nat)
    requires c.den > 0 && imbalance <= seen
    ensures BankFee(c, imbalance, amount) <= BankFee(c, seen, amount)
  {
    BaseIsExcessGrowth(c, imbalance, seen, amount);
    CeilMonotone(BaseAmount(c, imbalance, amount), BaseAmount(c, seen, amount), c.num, c.den);
  }

  /** More received over Lightning or withdrawn on chain never makes a withdrawal cheaper,
      and more sent over Lightning or deposited on chain never makes it dearer. With the
      flat method the volumes do not matter. */
  lemma FeeFollowsVolumes(method_: Method, c: FeeConfig, v: Volumes, amount: nat, x: nat)
    requires c.den > 0
    ensures var fee := WithdrawalFee(method_, c, v, amount);
            && WithdrawalFee(method_, c, v.(lnIn := v.lnIn + x), amount) >= fee
            && WithdrawalFee(method_, c, v.(onChainOut := v.onChainOut + x), amount) >= fee
            && WithdrawalFee(method_, c, v.(lnOut := v.lnOut + x), amount) <= fee
            && WithdrawalFee(method_, c, v.(onChainIn := v.onChainIn + x), amount) <= fee
    ensures forall w :: WithdrawalFee(Flat, c, w, amount) == BankFee(c, 0, amount)
  {
    var imbalance := SwapOutImbalance(method_, v);
    ImbalanceFollowsVolumes(v, x);
    if method_ == ProportionalOnImbalance {
      FeeRisesWithImbalance(c, imbalance, imbalance + x, amount);
      FeeRisesWithImbalance(c, imbalance - x, imbalance, amount);
    }
  }

  /** One part of a split withdrawal, with the imbalance that the fee is computed on. */
  datatype Part = Part(amount: nat, imbalance: int)

  function TotalAmount(parts: seq<Part>): nat {
    if parts == [] then 0 else TotalAmount(parts[..|parts| - 1]) + parts[|parts| - 1].amount
  }

  function TotalBase(c: FeeConfig, parts: seq<Part>): int {
    if parts == [] then 0
    else TotalBase(c, parts[..|parts| - 1]) + BaseAmount(c, parts[|parts| - 1].imbalance, parts[|parts| - 1].amount)
  }

  function TotalBankFee(c: FeeConfig, parts: seq<Part>): int
    requires c.den > 0
  {
    if parts == [] then 0
    else TotalBankFee(c, parts[..|parts| - 1]) + BankFee(c, parts[|parts| - 1].imbalance, parts[|parts| - 1].amount)
  }

  /** Each part sees the imbalance raised by at least the parts before it. */
  ghost predicate SeesEarlier(parts: seq<Part>, start: int) {
    forall k :: 0 <= k < |parts| ==> parts[k].imbalance >= start + TotalAmount(parts[..k])
  }

  lemma SeesEarlierFront(parts: seq<Part>, start: int)
    requires parts != [] && SeesEarlier(parts, start)
    ensures SeesEarlier(parts[..|parts| - 1], start)
  {
    var front := parts[..|parts| - 1];
    forall k | 0 <= k < |front| ensures front[k].imbalance >= start + TotalAmount(front[..k]) {
      assert front[..k] == parts[..k] && front[k] == parts[k];
    }
  }

  /** The parts are charged on at least what the whole would be charged on, and on
      exactly that when each sees the imbalance raised by exactly the parts before. */
  lemma {:induction false} BaseTelescopes(c: FeeConfig, parts: seq<Part>, start: int)
    requires SeesEarlier(parts, start)
    ensures TotalBase(c, parts) >= BaseAmount(c, start, TotalAmount(parts)) >= 0
    ensures (forall k :: 0 <= k < |parts| ==> parts[k].imbalance == start + TotalAmount(parts[..k]))
      ==> TotalBase(c, parts) == BaseAmount(c, start, TotalAmount(parts))
  {
    BaseIsExcessGrowth(c, start, start, TotalAmount(parts));
    if parts != [] {
      var front, last := parts[..|parts| - 1], parts[|parts| - 1];
      SeesEarlierFront(parts, start);
      BaseTelescopes(c, front, start);
      BaseIsExcessGrowth(c, start, start, TotalAmount(front));
      BaseIsExcessGrowth(c, start + TotalAmount(front), last.imbalance, last.amount);
      if forall k :: 0 <= k < |parts| ==> parts[k].imbalance == start + TotalAmount(parts[..k]) {
        forall k | 0 <= k < |front| ensures front[k].imbalance == start + TotalAmount(front[..k]) {
          assert front[..k] == parts[..k] && front[k] == parts[k];
        }
      }
    }
  }

  // ----- rounding up never favours a split

  /** The least multiple above a sum is at most the sum of the least multiples. */
  lemma CeilOfSum(p: int, q: int, x: int, y: int, z: int, den: nat)
    requires den > 0 && IsCeil(p, den, x) && IsCeil(q, den, y) && IsCeil(p + q, den, z)
    ensures z <= x + y
  {
    Distributes(x, y, den);
    CompareMultiples(z, x + y, den);
  }

  lemma Distributes(x: int, y: int, m: int)
    ensures (x + y) * m == x * m + y * m
  {
  }

  lemma CeilSplits(a: int, b: int, num: nat, den: nat)
    requires a >= 0 && b >= 0 && den > 0
    ensures 0 <= DivCeil((a + b) * num, den) <= DivCeil(a * num, den) + DivCeil(b * num, den)
  {
    ProductNonNegative(a, num);
    ProductNonNegative(b, num);
    Distributes(a, b, num);
    CeilOfTotal(a * num, b * num, den);
  }

  lemma CeilOfTotal(p: nat, q: nat, den: nat)
    requires den > 0
    ensures 0 <= DivCeil(p + q, den) <= DivCeil(p, den) + DivCeil(q, den)
  {
    var x, y, z := DivCeil(p, den), DivCeil(q, den), DivCeil(p + q, den);
    DivCeilIsCeil(p, den, x);
    DivCeilIsCeil(q, den, y);
    DivCeilIsCeil(p + q, den, z);
    CeilOfSum(p, q, x, y, z, den);
  }

  lemma CeilMonotone(a: int, b: int, num: nat, den: nat)
    requires 0 <= a <= b && den > 0
    ensures DivCeil(a * num, den) <= DivCeil(b * num, den)
  {
    ProductNonNegative(a, num);
    MulLe(a, b, num);
    RoundingsOrdered(a * num, b * num, den);
  }

  lemma {:induction false} FeesCoverTotalBase(c: FeeConfig, parts: seq<Part>)
    requires c.den > 0
    ensures TotalBase(c, parts) >= 0
    ensures TotalBankFee(c, parts) >= DivCeil(TotalBase(c, parts) * c.num, c.den) >= 0
    ensures parts != [] ==> TotalBankFee(c, parts) >= c.minBankFee
  {
    if parts == [] {
      assert TotalBase(c, parts) * c.num == 0;
    } else {
      var front, last := parts[..|parts| - 1], parts[|parts| - 1];
      FeesCoverTotalBase(c, front);
      BaseIsExcessGrowth(c, last.imbalance, last.imbalance, last.amount);
      CeilSplits(TotalBase(c, front), BaseAmount(c, last.imbalance, last.amount), c.num, c.den);
    }
  }

  /** Splitting a withdrawal never lowers the bank's fee. */
  lemma SplittingNeverCheaper(c: FeeConfig, parts: seq<Part>, start: int)
    requires c.den > 0 && parts != [] && SeesEarlier(parts, start)
    ensures TotalBankFee(c, parts) >= BankFee(c, start, TotalAmount(parts))
  {
    BaseTelescopes(c, parts, start);
    FeesCoverTotalBase(c, parts);
    CeilMonotone(BaseAmount(c, start, TotalAmount(parts)), TotalBase(c, parts), c.num, c.den);
  }

  // ----- what the ledger makes of it

  /** Every withdrawal is recorded with a debit of its amount and fees before the next
      one is priced. */
  ghost predicate PricedInOrder(parts: seq<Part>, debits: seq<nat>, v: Volumes) {
    && |debits| == |parts|
    && forall k :: 0 <= k < |parts| ==>
         && debits[k] >= parts[k].amount
         && parts[k].imbalance
            == SwapOutImbalance(ProportionalOnImbalance, v.(onChainOut := v.onChainOut + TotalDebit(debits[..k])))
  }

  function TotalDebit(debits: seq<nat>): nat {
    if debits == [] then 0 else TotalDebit(debits[..|debits| - 1]) + debits[|debits| - 1]
  }

  lemma {:induction false} DebitsCoverAmounts(parts: seq<Part>, debits: seq<nat>, k: nat)
    requires k <= |parts| == |debits| && forall i :: 0 <= i < |parts| ==> debits[i] >= parts[i].amount
    ensures TotalDebit(debits[..k]) >= TotalAmount(parts[..k])
  {
    if k > 0 {
      DebitsCoverAmounts(parts, debits, k - 1);
      assert debits[..k][..k - 1] == debits[..k - 1] && parts[..k][..k - 1] == parts[..k - 1];
    }
  }

  /** Withdrawals within one lookback window raise the imbalance that later ones are
      priced on, so no way of splitting a withdrawal is cheaper. */
  lemma SplittingWithdrawalsNeverCheaper(c: FeeConfig, parts: seq<Part>, debits: seq<nat>, v: Volumes)
    requires c.den > 0 && parts != [] && PricedInOrder(parts, debits, v)
    ensures TotalBankFee(c, parts) >= BankFee(c, SwapOutImbalance(ProportionalOnImbalance, v), TotalAmount(parts))
  {
    var start := SwapOutImbalance(ProportionalOnImbalance, v);
    forall k | 0 <= k < |parts| ensures parts[k].imbalance >= start + TotalAmount(parts[..k]) {
      DebitsCoverAmounts(parts, debits, k);
    }
    SplittingNeverCheaper(c, parts, start);
  }
}

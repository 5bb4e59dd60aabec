/** Keeping the hot wallet in shape: surplus on-chain funds go to cold storage, and a
    depleted on-chain wallet is refilled from the Lightning channels. */
module HotWallet {

  datatype RebalanceConfig = RebalanceConfig(minOnChain: nat, minRebalanceSize: nat, maxHotWallet: nat)

  datatype SwapConfig = SwapConfig(loopOutWhenLessThan: nat, swapOutAmount: nat)

  /** `otherOffChain` are channel funds that are not outbound liquidity. */
  datatype Funds = Funds(onChain: int, outbound: int, otherOffChain: int, cold: int)

  function WithdrawAmount(c: RebalanceConfig, onChain: int, offChain: int): int {
    if onChain + offChain > c.maxHotWallet && onChain - c.minOnChain > c.minRebalanceSize then onChain - c.minOnChain
    else 0
  }

  function SwapOutAmount(c: SwapConfig, onChain: int, outbound: int): int {
    if !(outbound > c.swapOutAmount) then 0
    else if onChain < c.loopOutWhenLessThan then c.swapOutAmount
    else 0
  }

  /** All that is above the minimum goes to cold storage, exactly when the hot wallet holds
      more than its maximum and that is more than the least amount worth a transaction. */
  lemma WithdrawsIff(c: RebalanceConfig, onChain: int, offChain: int)
    ensures WithdrawAmount(c, onChain, offChain) != 0
       <==> onChain + offChain > c.maxHotWallet && onChain > c.minOnChain + c.minRebalanceSize
    ensures WithdrawAmount(c, onChain, offChain) != 0 ==> onChain - WithdrawAmount(c, onChain, offChain) == c.minOnChain
  {
  }

  /** The fixed amount is swapped out exactly when the chain wallet is below its level and
      the channels hold more than that amount. */
  lemma SwapsOutIff(c: SwapConfig, onChain: int, outbound: int)
    ensures SwapOutAmount(c, onChain, outbound)
         == if onChain < c.loopOutWhenLessThan && outbound > c.swapOutAmount then c.swapOutAmount else 0
  {
  }

  function Rebalance(c: RebalanceConfig, f: Funds): Funds {
    var amount := WithdrawAmount(c, f.onChain, f.outbound + f.otherOffChain);
    f.(onChain := f.onChain - amount, cold := f.cold + amount)
  }

  function SwapOut(c: SwapConfig, f: Funds): Funds {
    var amount := SwapOutAmount(c, f.onChain, f.outbound);
    f.(onChain := f.onChain + amount, outbound := f.outbound - amount)
  }

  /** One run of the cron job, without outside flows or fees. */
  function Cycle(r: RebalanceConfig, s: SwapConfig, f: Funds): Funds {
    SwapOut(s, Rebalance(r, f))
  }

  /** No money is lost or made, the on-chain wallet is not taken below its minimum, and
      outbound liquidity is not overdrawn. */
  lemma CycleConserves(r: RebalanceConfig, s: SwapConfig, f: Funds)
    ensures var g := Cycle(r, s, f);
            && g.onChain + g.outbound + g.otherOffChain + g.cold == f.onChain + f.outbound + f.otherOffChain + f.cold
            && g.cold >= f.cold && g.outbound <= f.outbound && g.otherOffChain == f.otherOffChain
            && (f.onChain >= r.minOnChain ==> g.onChain >= r.minOnChain)
            && (f.onChain < r.minOnChain ==> g.onChain >= f.onChain)
            && (f.outbound >= 0 ==> g.outbound >= 0)
  {
  }

  /** Repeat the cycle until it changes nothing. */
  function Rest(r: RebalanceConfig, s: SwapConfig, f: Funds): Funds
    requires s.swapOutAmount > 0 && f.outbound >= 0
    decreases f.outbound, if f.onChain > r.minOnChain then f.onChain - r.minOnChain else 0
  {
    if Cycle(r, s, f) == f then f else Rest(r, s, Cycle(r, s, f))
  }

  /** Repeated cycles come to rest, with all money accounted for: the hot wallet is within
      its maximum or has nothing worth a transaction, and the chain wallet is at its level
      or the channels are too low to refill it. */
  lemma {:induction false} CyclesComeToRest(r: RebalanceConfig, s: SwapConfig, f: Funds)
    requires s.swapOutAmount > 0 && f.outbound >= 0
    ensures var g := Rest(r, s, f);
            && (g.onChain + g.outbound + g.otherOffChain <= r.maxHotWallet
                || g.onChain <= r.minOnChain + r.minRebalanceSize)
            && (g.onChain >= s.loopOutWhenLessThan || g.outbound <= s.swapOutAmount)
            && g.onChain + g.outbound + g.otherOffChain + g.cold == f.onChain + f.outbound + f.otherOffChain + f.cold
            && g.outbound >= 0 && g.cold >= f.cold
            && (f.onChain >= r.minOnChain ==> g.onChain >= r.minOnChain)
    decreases f.outbound, if f.onChain > r.minOnChain then f.onChain - r.minOnChain else 0
  {
    CycleConserves(r, s, f);
    if Cycle(r, s, f) != f { CyclesComeToRest(r, s, Cycle(r, s, f)); }
  }
}

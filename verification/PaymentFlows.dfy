/** A finished payment flow: what a payment costs its sender, in both currencies,
    and the questions the senders ask of it. */
module PaymentFlows {
  import opened Fees
  import opened Outcomes
  import opened PriceRatios

  datatype Currency = Btc | Usd

  datatype Settlement = IntraLedger | Lightning

  datatype Wallet = Wallet(id: string, currency: Currency, accountId: string)

  /** The wallet an invoice belongs to, with the cent amount it asks for, if any. */
  datatype Recipient = Recipient(id: string, currency: Currency, accountId: string, usdAmount: Option<int>)

  datatype Route = Route(fee: real, totalMtokens: nat)

  /** The empty string stands for a hash that is not set. */
  datatype Flow = Flow(
    paymentHash: string,
    intraLedgerHash: string,
    settlement: Settlement,
    sender: Wallet,
    recipient: Option<Recipient>,
    inputAmount: int,
    btcAmount: int,
    usdAmount: int,
    btcFee: int,
    usdFee: int,
    cachedRoute: Option<Route>)
  {
    function PaymentAmounts(): Amounts {
      Amounts(btcAmount, usdAmount)
    }

    function ProtocolFees(): Amounts {
      Amounts(btcFee, usdFee)
    }

    function TotalAmounts(): Amounts {
      Amounts(btcAmount + btcFee, usdAmount + usdFee)
    }

    /** The price of this very payment. */
    function Ratio(): PriceRatio {
      PriceRatio(usdAmount, btcAmount)
    }

    function CheckBalanceForSend(balance: int, currency: Currency): Outcome<()> {
      if sender.currency != currency then Err(InvalidCurrencyForWallet)
      else if balance < InCurrency(TotalAmounts(), currency) then Err(InsufficientBalance)
      else Ok(())
    }

    function PaymentHashForFlow(): Outcome<string> {
      if (paymentHash != "") == (intraLedgerHash != "") then Err(InvalidBuilderState)
      else if paymentHash == "" then Err(IntraLedgerHashPresentInLnFlow)
      else Ok(paymentHash)
    }

    function IntraLedgerHashForFlow(): Outcome<string> {
      if (paymentHash != "") == (intraLedgerHash != "") then Err(InvalidBuilderState)
      else if intraLedgerHash == "" then Err(LnHashPresentInIntraLedgerFlow)
      else Ok(intraLedgerHash)
    }

    /** The cached route, unless it was computed for another amount. */
    function RouteDetails(): Option<Route> {
      if cachedRoute.Some? && cachedRoute.value.totalMtokens / 1000 == btcAmount then cachedRoute else None
    }

    // ----- what the protocols rely on

    /** The cent fee is the ceiling of the sat fee at the payment's own price. */
    ghost predicate FeesFromSats() {
      btcAmount != 0 && usdFee == ConvertFromBtcToCeil(Ratio(), btcFee)
    }

    /** The sat fee is the rounded cent fee at the payment's own price. */
    ghost predicate FeesFromCents() {
      usdAmount != 0 && btcFee == ConvertFromUsd(Ratio(), usdFee)
    }

    ghost predicate Sound() {
      && btcAmount > 0 && usdAmount > 0
      && btcFee >= 0 && usdFee >= 0
      && ((paymentHash == "") != (intraLedgerHash == ""))
      && (FeesFromSats() || FeesFromCents())
    }

    /** Not a flow of cents priced above one cent a sat. */
    ghost predicate WithinParity() {
      FeesFromSats() || usdAmount <= btcAmount
    }
  }

  /** A route is used exactly when one is cached that carries the sats of the payment, up to
      a fraction of a sat. */
  lemma RouteKnownIff(f: Flow)
    ensures f.RouteDetails().Some?
       <==> f.cachedRoute.Some? && 1000 * f.btcAmount <= f.cachedRoute.value.totalMtokens < 1000 * f.btcAmount + 1000
    ensures f.RouteDetails().Some? ==> f.RouteDetails() == f.cachedRoute
  {
  }

  function InCurrency(a: Amounts, c: Currency): int {
    if c == Btc then a.btc else a.usd
  }

  /** What a fee refund would give back for a flow. */
  function FlowReimbursement(f: Flow, actualFee: int): Outcome<Amounts>
    requires f.btcAmount != 0
  {
    GetReimbursement(f.ProtocolFees(), f.Ratio(), actualFee)
  }

  /** At every price, a refund exists exactly when the actual fee stayed within the
      prepaid one; it is the sat difference, and it never exceeds the whole payment. */
  lemma ReimbursementWithinTotal(f: Flow, actualFee: nat)
    requires f.Sound()
    ensures FlowReimbursement(f, actualFee).Ok? <==> actualFee <= f.btcFee
    ensures actualFee <= f.btcFee ==>
      var r := FlowReimbursement(f, actualFee).value;
      r.btc == f.btcFee - actualFee && 0 <= r.usd <= f.usdAmount + f.usdFee
  {
    if actualFee <= f.btcFee {
      if f.FeesFromSats() {
        ReimbursementWithinCeilFee(f.Ratio(), f.btcFee, actualFee);
      } else {
        UsdFeeReimbursementExceedsIff(f.Ratio(), f.usdFee, actualFee);
        UsdFeeReimbursementWithinTotal(f.Ratio(), f.usdFee, actualFee);
      }
    }
  }

  /** A refund exists exactly when the actual fee stayed within the prepaid one; it is
      the sat difference, and within parity it never exceeds the prepaid cents. */
  lemma ReimbursementWithinPrepaid(f: Flow, actualFee: nat)
    requires f.Sound() && f.WithinParity()
    ensures FlowReimbursement(f, actualFee).Ok? <==> actualFee <= f.btcFee
    ensures actualFee <= f.btcFee ==>
      var r := FlowReimbursement(f, actualFee).value;
      r.btc == f.btcFee - actualFee && 0 <= r.usd <= f.usdFee
  {
    if actualFee <= f.btcFee {
      if f.FeesFromSats() {
        ReimbursementWithinCeilFee(f.Ratio(), f.btcFee, actualFee);
      } else {
        UsdFeeReimbursementWithinFee(f.Ratio(), f.usdFee, actualFee);
        UsdFeeReimbursementExceedsIff(f.Ratio(), f.usdFee, actualFee);
      }
    }
  }

  /** Above parity the refund is too large exactly when no fee at all was paid on the
      way and the sat fee overshoots the cent fee by more than half a cent. */
  lemma ReimbursementExceedsIff(f: Flow, actualFee: nat)
    requires f.Sound() && actualFee <= f.btcFee
    ensures FlowReimbursement(f, actualFee).value.usd > f.usdFee
       <==> !f.FeesFromSats() && actualFee == 0 && 2 * (f.btcFee * f.usdAmount - f.usdFee * f.btcAmount) > f.btcAmount
  {
    if f.FeesFromSats() {
      ReimbursementWithinCeilFee(f.Ratio(), f.btcFee, actualFee);
    } else {
      UsdFeeReimbursementExceedsIff(f.Ratio(), f.usdFee, actualFee);
    }
  }
}

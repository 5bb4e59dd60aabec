/** From a payment flow to the pending ledger transaction of its send, and back. */
module Translations {
  import opened FlowBuilder
  import opened Outcomes
  import opened PaymentFlows

  datatype TxType = Payment | OtherType

  datatype LedgerTransaction = LedgerTransaction(
    txType: TxType,
    walletId: Option<string>,
    currency: Option<Currency>,
    paymentHash: Option<string>,
    debit: int,
    satsAmount: Option<int>,
    centsAmount: Option<int>,
    satsFee: Option<int>,
    centsFee: Option<int>,
    feeKnownInAdvance: bool,
    timestamp: Option<int>)

  /** The debit leg that recording a send leaves in the ledger. */
  function RecordedSend(f: Flow, now: int): LedgerTransaction {
    LedgerTransaction(
      Payment, Some(f.sender.id), Some(f.sender.currency),
      if f.paymentHash != "" then Some(f.paymentHash) else None,
      InCurrency(f.TotalAmounts(), f.sender.currency),
      Some(f.btcAmount), Some(f.usdAmount), Some(f.btcFee), Some(f.usdFee),
      f.RouteDetails().Some?, Some(now))
  }

  function FlowFromLedgerTransaction(t: LedgerTransaction, senderAccountId: string): Outcome<Flow> {
    if t.txType != Payment then Err(NonLnPaymentTransaction)
    else if t.walletId.None? || t.currency.None? || t.paymentHash.None? || t.satsAmount.None? || t.centsAmount.None?
         || t.satsFee.None? || t.centsFee.None? || t.timestamp.None?
    then Err(MissingPropsInTransaction)
    else Ok(Flow(
      t.paymentHash.value, "", Lightning, Wallet(t.walletId.value, t.currency.value, senderAccountId), None,
      if t.currency.value == Usd then t.centsAmount.value else t.satsAmount.value,
      t.satsAmount.value, t.centsAmount.value, t.satsFee.value, t.centsFee.value, None))
  }

  function InputAmountFromLedgerTransaction(t: LedgerTransaction): Outcome<int> {
    var fee := if t.currency == Some(Usd) then t.centsFee else t.satsFee;
    if fee.None? then Err(InvalidLedgerTransactionState) else Ok(t.debit - fee.value)
  }

  /** A flow rebuilt from its own ledger transaction refunds exactly like the original:
      same credit after any actual fee, same credit after a failure, to the same sender. */
  lemma RebuiltFlowRefundsAlike(f: Flow, now: int)
    requires f.Sound() && f.paymentHash != ""
    ensures var g := FlowFromLedgerTransaction(RecordedSend(f, now), f.sender.accountId);
            && g.Ok? && g.value.Sound() && g.value.sender == f.sender
            && g.value.PaymentHashForFlow() == f.PaymentHashForFlow() == Ok(f.paymentHash)
            && g.value.TotalAmounts() == f.TotalAmounts()
            && g.value.PaymentAmounts() == f.PaymentAmounts() && g.value.ProtocolFees() == f.ProtocolFees()
            && g.value.inputAmount == InCurrency(f.PaymentAmounts(), f.sender.currency)
            && g.value.settlement == Lightning && g.value.recipient.None? && g.value.cachedRoute.None?
            && (forall fee: nat :: FlowReimbursement(g.value, fee) == FlowReimbursement(f, fee))
    ensures RecordedSend(f, now).feeKnownInAdvance
       <==> f.cachedRoute.Some? && 1000 * f.btcAmount <= f.cachedRoute.value.totalMtokens < 1000 * f.btcAmount + 1000
  {
    RouteKnownIff(f);
    var g := FlowFromLedgerTransaction(RecordedSend(f, now), f.sender.accountId).value;
    assert g.Ratio() == f.Ratio();
    assert g.FeesFromSats() == f.FeesFromSats() && g.FeesFromCents() == f.FeesFromCents();
  }

  /** A transaction gives a flow exactly when it is a payment with all that a flow needs, and
      the flow is for the amounts of the transaction, in the wallet's currency. */
  lemma FlowFromTransactionIff(t: LedgerTransaction, senderAccountId: string)
    ensures var g := FlowFromLedgerTransaction(t, senderAccountId);
            && (t.txType != Payment ==> g == Err(NonLnPaymentTransaction))
            && (t.txType == Payment && g.Err? ==> g == Err(MissingPropsInTransaction))
            && (g.Ok? <==>
                  && t.txType == Payment && t.walletId.Some? && t.currency.Some? && t.paymentHash.Some?
                  && t.satsAmount.Some? && t.centsAmount.Some? && t.satsFee.Some? && t.centsFee.Some?
                  && t.timestamp.Some?)
            && (g.Ok? ==>
                  && g.value.sender == Wallet(t.walletId.value, t.currency.value, senderAccountId)
                  && g.value.PaymentHashForFlow() == (if t.paymentHash.value == "" then Err(InvalidBuilderState)
                                                      else Ok(t.paymentHash.value))
                  && Some(g.value.btcAmount) == t.satsAmount && Some(g.value.usdAmount) == t.centsAmount
                  && Some(g.value.btcFee) == t.satsFee && Some(g.value.usdFee) == t.centsFee
                  && Some(g.value.inputAmount) == (if t.currency == Some(Usd) then t.centsAmount else t.satsAmount))
  {
  }

  /** Debit minus fee is the payment in the sender's currency. It is the key under which
      the flow was stored exactly when the amount was typed in by the sender, or the
      sender pays sats, or the sats happen to equal the cents. */
  lemma UpdaterFindsFlowIff(
    localNodeIds: seq<string>, invoice: Invoice, uncheckedAmount: Option<real>, sender: Wallet,
    recipientLookup: Outcome<Recipient>, prices: Prices, now: int)
    requires invoice.paymentHash != "" && PositiveIfSet(invoice.amount) && HonestPrices(prices)
    requires match recipientLookup case Ok(r) => PositiveIfSet(r.usdAmount) case Err(e) => e.ServiceError?
    requires SettlementFor(localNodeIds, Some(invoice.destination)) == Lightning
    requires ConstructPaymentFlowBuilder(localNodeIds, invoice, uncheckedAmount, sender, recipientLookup, prices).Ok?
    ensures var p :=
              ConstructPaymentFlowBuilder(localNodeIds, invoice, uncheckedAmount, sender, recipientLookup, prices);
            var f := WithoutRoute(p).value;
            var key := InputAmountFromLedgerTransaction(RecordedSend(f, now));
            && key == Ok(InCurrency(f.PaymentAmounts(), sender.currency))
            && (key == Ok(f.inputAmount) <==>
                  || sender.currency == Btc
                  || (uncheckedAmount.Some? && uncheckedAmount.value != 0.0)
                  || f.btcAmount == f.usdAmount)
  {
    StartFits(localNodeIds, invoice, uncheckedAmount, sender);
    InvoiceChainSound(localNodeIds, invoice, uncheckedAmount, sender, recipientLookup, prices);
  }
}

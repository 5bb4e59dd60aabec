/** The staged construction of a payment flow. Every stage maps the state of the
    builder to a new state or to an error, and an error passes through all later
    stages unchanged. */
module FlowBuilder {
  import opened Fees
  import opened Outcomes
  import opened PaymentFlows
  import opened PriceRatios

  const MAX_SATS := 10000000000000.0
  const MAX_CENTS := 10000000000000.0

  datatype Invoice = Invoice(destination: string, paymentHash: string, amount: Option<int>)

  /** After an invoice, or none, was given. */
  datatype Start = Start(
    settlement: Settlement,
    paymentHash: string,
    intraLedgerHash: string,
    uncheckedAmount: Option<real>,
    btcAmount: Option<int>,
    inputAmount: Option<int>,
    btcFee: Option<int>,
    usdFee: Option<int>)

  /** After the sender and, later, the recipient were given. */
  datatype Draft = Draft(
    start: Start,
    sender: Wallet,
    recipient: Option<Recipient>,
    inputAmount: int,
    btcAmount: Option<int>,
    usdAmount: Option<int>,
    btcFee: Option<int>,
    usdFee: Option<int>)

  /** After conversion: everything is known in both currencies. */
  datatype Priced = Priced(draft: Draft, btcAmount: int, usdAmount: int, btcFee: int, usdFee: int)

  datatype Quotes = Quotes(usdFromBtc: int -> Outcome<int>, btcFromUsd: int -> Outcome<int>)

  datatype Prices = Prices(mid: Quotes, hedgeBuyUsd: Quotes, hedgeSellUsd: Quotes)

  // ----- stage 1: the invoice

  function SettlementFor(localNodeIds: seq<string>, destination: Option<string>): Settlement {
    if destination.None? || destination.value in localNodeIds then IntraLedger else Lightning
  }

  /** Intraledger payments are free; Lightning fees are not known yet. */
  function InitialFee(settlement: Settlement): Option<int> {
    if settlement == IntraLedger then Some(0) else None
  }

  function WithInvoice(localNodeIds: seq<string>, invoice: Invoice): Outcome<Start> {
    if invoice.amount.None? then Err(InvalidBuilderState)
    else
      var m := SettlementFor(localNodeIds, Some(invoice.destination));
      Ok(Start(m, invoice.paymentHash, "", None, invoice.amount, invoice.amount, InitialFee(m), InitialFee(m)))
  }

  function WithNoAmountInvoice(localNodeIds: seq<string>, invoice: Invoice, uncheckedAmount: real): Outcome<Start> {
    var m := SettlementFor(localNodeIds, Some(invoice.destination));
    Ok(Start(m, invoice.paymentHash, "", Some(uncheckedAmount), None, None, InitialFee(m), InitialFee(m)))
  }

  function WithoutInvoice(localNodeIds: seq<string>, intraLedgerHash: string, uncheckedAmount: real): Outcome<Start> {
    var m := SettlementFor(localNodeIds, None);
    Ok(Start(m, "", intraLedgerHash, Some(uncheckedAmount), None, None, InitialFee(m), InitialFee(m)))
  }

  // ----- stage 2: the sender

  function CheckedAmount(amount: real, max: real, tooLarge: Error, invalid: Error): Outcome<int> {
    if amount > max then Err(tooLarge)
    else if amount.Floor as real != amount then Err(invalid)
    else if !(amount > 0.0) then Err(invalid)
    else Ok(amount.Floor)
  }

  function OrElse(fee: Option<int>, amount: int): int {
    if fee.Some? then fee.value else MaxProtocolFee(amount)
  }

  /** The last case throws in the source. A zero invoice amount is falsy there. */
  function WithSenderWallet(o: Outcome<Start>, sender: Wallet): Outcome<Draft> {
    if o.Err? then Err(o.error)
    else
      var s := o.value;
      if s.uncheckedAmount.Some? then
        if sender.currency == Btc then
          var a := CheckedAmount(s.uncheckedAmount.value, MAX_SATS, BtcAmountTooLarge, InvalidBtcPaymentAmount);
          if a.Err? then Err(a.error)
          else Ok(Draft(s, sender, None, a.value, Some(a.value), None, Some(OrElse(s.btcFee, a.value)), s.usdFee))
        else
          var a := CheckedAmount(s.uncheckedAmount.value, MAX_CENTS, UsdAmountTooLarge, InvalidUsdPaymentAmount);
          if a.Err? then Err(a.error)
          else
            Ok(Draft(s, sender, None, a.value, s.btcAmount, Some(a.value), s.btcFee, Some(OrElse(s.usdFee, a.value))))
      else if s.inputAmount.Some? && s.inputAmount.value != 0 && s.btcAmount.Some? then
        var btcFee := OrElse(s.btcFee, s.btcAmount.value);
        Ok(Draft(s, sender, None, s.inputAmount.value, s.btcAmount, None, Some(btcFee), s.usdFee))
      else Err(SenderWalletImpossible)
  }

  // ----- stage 3: the recipient

  function WithoutRecipientWallet(o: Outcome<Draft>): Outcome<Draft> {
    if o.Err? then o
    else if o.value.start.settlement == IntraLedger then Err(InvalidBuilderState)
    else o
  }

  function WithRecipientWallet(o: Outcome<Draft>, r: Recipient): Outcome<Draft> {
    if o.Err? then o
    else
      var d := o.value;
      if r.id == d.sender.id then Err(SelfPayment)
      else if r.currency == Usd
        && r.usdAmount.Some? == (d.start.uncheckedAmount.Some? && d.start.uncheckedAmount.value != 0.0)
      then Err(InvalidBuilderState)
      else Ok(d.(recipient := Some(r), usdAmount := if r.usdAmount.Some? then r.usdAmount else d.usdAmount))
  }

  // ----- stage 4: the conversion

  function FromBtc(d: Draft, btcAmount: int, btcFee: int, quote: Outcome<int>): Outcome<Priced> {
    if quote.Err? then Err(quote.error)
    else
      var ratio := MakePriceRatio(quote.value, btcAmount);
      if ratio.Err? then Err(ratio.error)
      else Ok(Priced(d, btcAmount, quote.value, btcFee, ConvertFromBtcToCeil(ratio.value, btcFee)))
  }

  function FromUsd(d: Draft, usdAmount: int, usdFee: int, quote: Outcome<int>): Outcome<Priced> {
    if quote.Err? then Err(quote.error)
    else
      var ratio := MakePriceRatio(usdAmount, quote.value);
      if ratio.Err? then Err(ratio.error)
      else Ok(Priced(d, quote.value, usdAmount, ConvertFromUsd(ratio.value, usdFee), usdFee))
  }

  predicate NoConversionRequired(d: Draft) {
    || (d.sender.currency == Btc && d.start.settlement == Lightning)
    || (d.recipient.Some? && d.sender.currency == d.recipient.value.currency)
  }

  function HedgeQuotes(d: Draft, prices: Prices): Quotes {
    if d.sender.currency == Btc then prices.hedgeBuyUsd else prices.hedgeSellUsd
  }

  function WithConversion(o: Outcome<Draft>, prices: Prices): Outcome<Priced> {
    if o.Err? then Err(o.error)
    else
      var d := o.value;
      var knowsBtc := d.btcAmount.Some? && d.btcFee.Some?;
      var knowsUsd := d.usdAmount.Some? && d.usdFee.Some?;
      if NoConversionRequired(d) then
        if knowsBtc then
          if knowsUsd then Ok(Priced(d, d.btcAmount.value, d.usdAmount.value, d.btcFee.value, d.usdFee.value))
          else FromBtc(d, d.btcAmount.value, d.btcFee.value, prices.mid.usdFromBtc(d.btcAmount.value))
        else if knowsUsd then FromUsd(d, d.usdAmount.value, d.usdFee.value, prices.mid.btcFromUsd(d.usdAmount.value))
        else Err(ConversionImpossible)
      else if knowsBtc then
        if d.recipient.Some? && d.recipient.value.currency == Usd && knowsUsd
        then Ok(Priced(d, d.btcAmount.value, d.usdAmount.value, d.btcFee.value, d.usdFee.value))
        else FromBtc(d, d.btcAmount.value, d.btcFee.value, HedgeQuotes(d, prices).usdFromBtc(d.btcAmount.value))
      else if knowsUsd
      then FromUsd(d, d.usdAmount.value, d.usdFee.value, HedgeQuotes(d, prices).btcFromUsd(d.usdAmount.value))
      else Err(ConversionImpossible)
  }

  // ----- stage 5: the flow

  function PaymentFromState(p: Priced, btcFee: int, usdFee: int, route: Option<Route>): Outcome<Flow> {
    var s := p.draft.start;
    if s.paymentHash == "" && s.intraLedgerHash == "" then Err(InvalidFlowState)
    else Ok(Flow(s.paymentHash, if s.paymentHash != "" then "" else s.intraLedgerHash, s.settlement,
                 p.draft.sender, p.draft.recipient, p.draft.inputAmount,
                 p.btcAmount, p.usdAmount, btcFee, usdFee, route))
  }

  function WithoutRoute(o: Outcome<Priced>): Outcome<Flow> {
    if o.Err? then Err(o.error) else PaymentFromState(o.value, o.value.btcFee, o.value.usdFee, None)
  }

  function WithRoute(o: Outcome<Priced>, route: Route): Outcome<Flow> {
    if o.Err? then Err(o.error)
    else
      var ratio := MakePriceRatio(o.value.usdAmount, o.value.btcAmount);
      if ratio.Err? then Err(ratio.error)
      else
        var btcFee := FeeFromRawRoute(route.fee);
        PaymentFromState(o.value, btcFee, ConvertFromBtcToCeil(ratio.value, btcFee), Some(route))
  }

  // ----- the chains, as the callers assemble them

  /** The builder up to the sender: a zero or missing amount selects the invoice's own. */
  function SenderStage(
    localNodeIds: seq<string>, invoice: Invoice, uncheckedAmount: Option<real>, sender: Wallet): Outcome<Draft>
  {
    WithSenderWallet(
      if uncheckedAmount.Some? && uncheckedAmount.value != 0.0
      then WithNoAmountInvoice(localNodeIds, invoice, uncheckedAmount.value)
      else WithInvoice(localNodeIds, invoice), sender)
  }

  /** The source asks an erroneous builder whether it is intraledger and gets a
      promise, which is truthy: the recipient is then looked up all the same. */
  function FromSenderStage(
    built: Outcome<Draft>, recipientLookup: Outcome<Recipient>, prices: Prices): Outcome<Priced>
  {
    var truthyIntraLedger := built.Err? || built.value.start.settlement == IntraLedger;
    if truthyIntraLedger && recipientLookup.Err? then Err(recipientLookup.error)
    else
      var afterRecipient := if truthyIntraLedger then WithRecipientWallet(built, recipientLookup.value)
                            else WithoutRecipientWallet(built);
      var converted := WithConversion(afterRecipient, prices);
      if converted == Err(InvalidZeroAmountPriceRatioInput) && built.Ok? && built.value.start.settlement == IntraLedger
      then Err(ZeroAmountForUsdRecipient)
      else converted
  }

  function ConstructPaymentFlowBuilder(
    localNodeIds: seq<string>, invoice: Invoice, uncheckedAmount: Option<real>, sender: Wallet,
    recipientLookup: Outcome<Recipient>, prices: Prices): Outcome<Priced>
  {
    FromSenderStage(SenderStage(localNodeIds, invoice, uncheckedAmount, sender), recipientLookup, prices)
  }

  /** A payment between wallets without an invoice. */
  function BuildIntraledgerFlow(
    intraLedgerHash: string, uncheckedAmount: real, sender: Wallet, recipient: Recipient, prices: Prices): Outcome<Flow>
  {
    var flow := WithoutRoute(WithConversion(
      WithRecipientWallet(WithSenderWallet(WithoutInvoice([], intraLedgerHash, uncheckedAmount), sender),
        recipient.(usdAmount := None)), prices));
    if flow == Err(InvalidZeroAmountPriceRatioInput) then Err(ZeroAmountForUsdRecipient) else flow
  }

  // ----- what the outside world is asked for

  /** Price services answer with an amount that is not negative, or with their own error. */
  ghost predicate Honest(q: Quotes) {
    && (forall x: nat :: match q.usdFromBtc(x) case Ok(v) => v >= 0 case Err(e) => e.ServiceError?)
    && (forall x: nat :: match q.btcFromUsd(x) case Ok(v) => v >= 0 case Err(e) => e.ServiceError?)
  }

  ghost predicate HonestPrices(prices: Prices) {
    Honest(prices.mid) && Honest(prices.hedgeBuyUsd) && Honest(prices.hedgeSellUsd)
  }

  ghost predicate PositiveIfSet(a: Option<int>) {
    a.Some? ==> a.value > 0
  }

  // ----- every draft can be priced

  ghost predicate FeeFits(settlement: Settlement, fee: Option<int>) {
    fee.Some? ==> if settlement == IntraLedger then fee.value == 0 else fee.value >= 1
  }

  /** What the sender stage leaves behind: a positive amount with its fee, in sats or in cents. */
  ghost predicate Ready(d: Draft) {
    && PositiveIfSet(d.btcAmount) && PositiveIfSet(d.usdAmount)
    && FeeFits(d.start.settlement, d.btcFee) && FeeFits(d.start.settlement, d.usdFee)
    && ((d.btcAmount.Some? && d.btcFee.Some?) || (d.btcAmount.None? && d.usdAmount.Some? && d.usdFee.Some?))
    && (d.btcAmount.None? ==> d.sender.currency == Usd && d.start.uncheckedAmount.Some?)
    && (d.start.settlement == Lightning ==> d.recipient.None? && (d.usdFee.Some? ==> d.btcAmount.None?))
  }

  lemma SenderStageReady(o: Outcome<Start>, sender: Wallet)
    requires o.Ok?
    requires PositiveIfSet(o.value.btcAmount) && o.value.inputAmount == o.value.btcAmount
    requires o.value.uncheckedAmount.Some? <==> o.value.btcAmount.None?
    requires o.value.btcFee == o.value.usdFee == InitialFee(o.value.settlement)
    ensures var d := WithSenderWallet(o, sender);
            && d != Err(SenderWalletImpossible)
            && (d.Ok? ==>
                  Ready(d.value) && d.value.start == o.value && d.value.sender == sender && d.value.recipient.None?)
  {
    var d := WithSenderWallet(o, sender);
    if d.Ok? {
      if d.value.btcAmount.Some? { MaxProtocolFeeIsHalfPercent(d.value.btcAmount.value); }
      if d.value.usdAmount.Some? { MaxProtocolFeeIsHalfPercent(d.value.usdAmount.value); }
    }
  }

  ghost predicate WellPriced(p: Priced) {
    && p.btcAmount > 0 && p.usdAmount > 0
    && (if p.draft.start.settlement == IntraLedger then p.btcFee == 0 && p.usdFee == 0
        else p.btcFee >= 1 && p.usdFee >= 1)
    && (p.usdFee == ConvertFromBtcToCeil(PriceRatio(p.usdAmount, p.btcAmount), p.btcFee)
        || (p.draft.btcAmount.None? && p.btcFee == ConvertFromUsd(PriceRatio(p.usdAmount, p.btcAmount), p.usdFee)))
  }

  lemma FromBtcWellPriced(d: Draft, btcAmount: int, btcFee: int, quote: Outcome<int>)
    requires btcAmount > 0 && FeeFits(d.start.settlement, Some(btcFee)) && (quote.Ok? ==> quote.value >= 0)
    ensures var p := FromBtc(d, btcAmount, btcFee, quote);
            && (p.Ok? ==> WellPriced(p.value))
            && (p.Err? ==> p == Err(InvalidZeroAmountPriceRatioInput) || p.error == quote.error)
  {
    if quote.Ok? && quote.value != 0 {
      ConversionsOrdered(PriceRatio(quote.value, btcAmount), btcFee, btcFee);
    }
  }

  lemma FromUsdWellPriced(d: Draft, usdAmount: int, usdFee: int, quote: Outcome<int>)
    requires usdAmount > 0 && FeeFits(d.start.settlement, Some(usdFee)) && (quote.Ok? ==> quote.value >= 0)
    requires d.btcAmount.None?
    ensures var p := FromUsd(d, usdAmount, usdFee, quote);
            && (p.Ok? ==> WellPriced(p.value))
            && (p.Err? ==> p == Err(InvalidZeroAmountPriceRatioInput) || p.error == quote.error)
  {
    if quote.Ok? && quote.value != 0 && usdFee > 0 {
      ScaleIsNearestOrOne(usdFee, quote.value, usdAmount);
    }
  }

  /** A ready draft is priced soundly, or fails with a price service's error or a zero
      price: the branches the source calls impossible are. */
  lemma ConversionWellPriced(d: Draft, prices: Prices)
    requires Ready(d) && HonestPrices(prices)
    ensures var p := WithConversion(Ok(d), prices);
            && (p.Ok? ==> WellPriced(p.value) && p.value.draft == d)
            && (p.Err? ==> p.error == InvalidZeroAmountPriceRatioInput || p.error.ServiceError?)
  {
    var quotes := if NoConversionRequired(d) then prices.mid else HedgeQuotes(d, prices);
    if d.btcAmount.Some? && d.btcFee.Some? {
      FromBtcWellPriced(d, d.btcAmount.value, d.btcFee.value, quotes.usdFromBtc(d.btcAmount.value));
    } else {
      FromUsdWellPriced(d, d.usdAmount.value, d.usdFee.value, quotes.btcFromUsd(d.usdAmount.value));
    }
  }

  // ----- every chain ends in a sound flow or in the error that stopped it

  lemma StartFits(localNodeIds: seq<string>, invoice: Invoice, uncheckedAmount: Option<real>, sender: Wallet)
    requires PositiveIfSet(invoice.amount)
    ensures var d := SenderStage(localNodeIds, invoice, uncheckedAmount, sender);
            && (d.Err? ==> Possible(d.error))
            && (d.Ok? ==> Ready(d.value) && d.value.recipient.None? && d.value.start.paymentHash == invoice.paymentHash)
            && (d.Ok? ==> d.value.sender == sender && d.value.start.intraLedgerHash == ""
                          && d.value.start.settlement == SettlementFor(localNodeIds, Some(invoice.destination))
                          && (d.value.btcAmount.None? ==> sender.currency == Usd && uncheckedAmount.Some?))
  {
    if uncheckedAmount.Some? && uncheckedAmount.value != 0.0 {
      SenderStageReady(WithNoAmountInvoice(localNodeIds, invoice, uncheckedAmount.value), sender);
    } else if invoice.amount.Some? {
      SenderStageReady(WithInvoice(localNodeIds, invoice), sender);
    }
  }

  predicate Possible(e: Error) {
    e != SenderWalletImpossible && e != ConversionImpossible
  }

  lemma FromSenderStageSound(built: Outcome<Draft>, recipientLookup: Outcome<Recipient>, prices: Prices)
    requires HonestPrices(prices) && (built.Ok? ==> Ready(built.value) && built.value.recipient.None?)
    requires built.Err? ==> Possible(built.error)
    requires match recipientLookup case Ok(r) => PositiveIfSet(r.usdAmount) case Err(e) => e.ServiceError?
    ensures var p := FromSenderStage(built, recipientLookup, prices);
            && (p.Err? ==> Possible(p.error))
            && (p.Ok? ==> built.Ok? && WellPriced(p.value) && p.value.draft.start == built.value.start
                          && p.value.draft.sender == built.value.sender
                          && p.value.draft.btcAmount == built.value.btcAmount)
  {
    if built.Ok? {
      var next := if built.value.start.settlement == IntraLedger
                  then (if recipientLookup.Ok? then WithRecipientWallet(built, recipientLookup.value) else built)
                  else WithoutRecipientWallet(built);
      if next.Ok? { ConversionWellPriced(next.value, prices); }
    }
  }

  /** A soundly priced draft of an invoice makes a sound flow. */
  lemma PricedFlowSound(p: Priced)
    requires WellPriced(p) && p.draft.start.paymentHash != ""
    ensures var f := WithoutRoute(Ok(p));
            && f.Ok? && f.value.Sound() && f.value.PaymentHashForFlow() == Ok(p.draft.start.paymentHash)
            && f.value.sender == p.draft.sender && f.value.settlement == p.draft.start.settlement
            && f.value.PaymentAmounts() == Amounts(p.btcAmount, p.usdAmount)
            && f.value.ProtocolFees() == Amounts(p.btcFee, p.usdFee)
            && (f.value.FeesFromSats() || p.draft.btcAmount.None?)
  {
  }

  /** Paying an invoice: neither impossible branch is reached, and whatever comes out
      of the builder makes a flow with exactly the invoice's hash, positive amounts,
      and fees of zero inside the ledger and of at least one unit on Lightning. */
  lemma InvoiceChainSound(
    localNodeIds: seq<string>, invoice: Invoice, uncheckedAmount: Option<real>, sender: Wallet,
    recipientLookup: Outcome<Recipient>, prices: Prices)
    requires invoice.paymentHash != "" && PositiveIfSet(invoice.amount) && HonestPrices(prices)
    requires match recipientLookup case Ok(r) => PositiveIfSet(r.usdAmount) case Err(e) => e.ServiceError?
    ensures var p :=
              ConstructPaymentFlowBuilder(localNodeIds, invoice, uncheckedAmount, sender, recipientLookup, prices);
            && (p.Err? ==> Possible(p.error))
            && (p.Ok? ==> WellPriced(p.value))
            && (p.Ok? ==> var f := WithoutRoute(p);
                          && f.Ok? && f.value.Sound() && f.value.PaymentHashForFlow() == Ok(invoice.paymentHash)
                          && f.value.sender == sender
                          && f.value.settlement == SettlementFor(localNodeIds, Some(invoice.destination))
                          && f.value.PaymentAmounts() == Amounts(p.value.btcAmount, p.value.usdAmount)
                          && f.value.ProtocolFees() == Amounts(p.value.btcFee, p.value.usdFee)
                          && (f.value.FeesFromSats() || (sender.currency == Usd && uncheckedAmount.Some?)))
  {
    var built := SenderStage(localNodeIds, invoice, uncheckedAmount, sender);
    StartFits(localNodeIds, invoice, uncheckedAmount, sender);
    FromSenderStageSound(built, recipientLookup, prices);
    var p := FromSenderStage(built, recipientLookup, prices);
    if p.Ok? { PricedFlowSound(p.value); }
  }

  /** A known route fixes the sat fee; the cent fee is its ceiling. */
  lemma RouteFlowSound(p: Priced, route: Route)
    requires WellPriced(p) && p.draft.start.paymentHash != "" && route.fee >= 0.0
    ensures var f := WithRoute(Ok(p), route);
            && f.Ok? && f.value.Sound() && f.value.FeesFromSats()
            && f.value.PaymentAmounts() == Amounts(p.btcAmount, p.usdAmount) && f.value.cachedRoute == Some(route)
            && f.value.sender == p.draft.sender && f.value.paymentHash == p.draft.start.paymentHash
            && f.value.settlement == p.draft.start.settlement && f.value.inputAmount == p.draft.inputAmount
            && route.fee <= f.value.btcFee as real < route.fee + 1.0
  {
    ConversionsOrdered(PriceRatio(p.usdAmount, p.btcAmount), FeeFromRawRoute(route.fee), FeeFromRawRoute(route.fee));
  }

  /** Paying a wallet without an invoice: a free flow under the generated hash. */
  lemma IntraledgerChainSound(
    intraLedgerHash: string, uncheckedAmount: real, sender: Wallet, recipient: Recipient, prices: Prices)
    requires intraLedgerHash != "" && HonestPrices(prices)
    ensures var f := BuildIntraledgerFlow(intraLedgerHash, uncheckedAmount, sender, recipient, prices);
            && (f.Err? ==> f.error != SenderWalletImpossible && f.error != ConversionImpossible)
            && (f.Ok? ==> f.value.Sound() && f.value.IntraLedgerHashForFlow() == Ok(intraLedgerHash))
            && (f.Ok? ==> f.value.btcFee == 0 && f.value.usdFee == 0
                          && f.value.recipient == Some(recipient.(usdAmount := None)))
  {
    var start := WithoutInvoice([], intraLedgerHash, uncheckedAmount);
    SenderStageReady(start, sender);
    var next := WithRecipientWallet(WithSenderWallet(start, sender), recipient.(usdAmount := None));
    if next.Ok? { ConversionWellPriced(next.value, prices); }
  }

  // ----- what is paid, and at which price

  /** An amount was typed in. */
  predicate Typed(uncheckedAmount: Option<real>) {
    uncheckedAmount.Some? && uncheckedAmount.value != 0.0
  }

  /** The first stages succeed exactly for an invoice with an amount, or for a whole number
      of units in range that was typed in. Sats are known from the invoice, or if sats were
      typed in, and cents if cents were; the other amount and its fee are left open. */
  lemma SenderStageAmounts(localNodeIds: seq<string>, invoice: Invoice, uncheckedAmount: Option<real>, sender: Wallet)
    requires PositiveIfSet(invoice.amount)
    ensures var d, typed := SenderStage(localNodeIds, invoice, uncheckedAmount, sender), Typed(uncheckedAmount);
            && (d.Ok? <==> if typed then Whole(uncheckedAmount.value, 10000000000000.0) else invoice.amount.Some?)
            && (d.Ok? ==>
                  var lightning := invoice.destination !in localNodeIds;
                  && d.value.sender == sender && d.value.recipient.None?
                  && d.value.start.settlement == (if lightning then Lightning else IntraLedger)
                  && (if !typed || sender.currency == Btc
                      then d.value.btcAmount == Some(d.value.inputAmount) && d.value.usdAmount.None?
                           && d.value.btcFee == Some(if lightning then MaxProtocolFee(d.value.inputAmount) else 0)
                           && d.value.usdFee == (if lightning then None else Some(0))
                      else d.value.usdAmount == Some(d.value.inputAmount) && d.value.btcAmount.None?
                           && d.value.usdFee == Some(if lightning then MaxProtocolFee(d.value.inputAmount) else 0)
                           && d.value.btcFee == (if lightning then None else Some(0)))
                  && d.value.inputAmount as real
                     == (if typed then uncheckedAmount.value else invoice.amount.value as real))
  {
  }

  predicate Whole(amount: real, max: real) {
    0.0 < amount <= max && amount.Floor as real == amount
  }

  /** And the errors otherwise. */
  lemma SenderStageErrors(localNodeIds: seq<string>, invoice: Invoice, uncheckedAmount: Option<real>, sender: Wallet)
    ensures var d := SenderStage(localNodeIds, invoice, uncheckedAmount, sender);
            if !Typed(uncheckedAmount) then invoice.amount.None? ==> d == Err(InvalidBuilderState)
            else
              && (uncheckedAmount.value > 10000000000000.0 ==>
                    d == Err(if sender.currency == Btc then BtcAmountTooLarge else UsdAmountTooLarge))
              && (uncheckedAmount.value <= 10000000000000.0 && !Whole(uncheckedAmount.value, 10000000000000.0) ==>
                    d == Err(if sender.currency == Btc then InvalidBtcPaymentAmount else InvalidUsdPaymentAmount))
  {
  }

  /** The cents of a payment in terms of its sats: fixed by the recipient's invoice, or the
      answer to the question asked of one of the prices. */
  ghost predicate CentsFor(sender: Currency, recipient: Option<Recipient>, prices: Prices, sats: int, cents: int) {
    match recipient
    case None => Ok(cents) == (if sender == Btc then prices.mid else prices.hedgeSellUsd).usdFromBtc(sats)
    case Some(r) =>
      if r.usdAmount.Some? && (r.currency == Usd || sender == Btc) then cents == r.usdAmount.value
      else if sender == r.currency then Ok(cents) == prices.mid.usdFromBtc(sats)
      else Ok(cents) == (if sender == Btc then prices.hedgeBuyUsd else prices.hedgeSellUsd).usdFromBtc(sats)
  }

  /** The sats of a payment whose cents a dollar wallet chose. */
  ghost predicate SatsFor(recipient: Option<Recipient>, prices: Prices, sats: int, cents: int) {
    Ok(sats) == (if recipient.Some? && recipient.value.currency == Usd then prices.mid else prices.hedgeSellUsd)
                  .btcFromUsd(cents)
  }

  /** A payment costs its known amount and the price of it. Fees are due on Lightning: half a
      percent of the known amount, and its price rounded up to cents or to the nearest sat. */
  ghost predicate PricedAs(
    satsKnown: bool, amount: int, lightning: bool, sender: Currency, recipient: Option<Recipient>, prices: Prices,
    paid: Amounts, fees: Amounts)
  {
    && paid.btc != 0 && paid.usd != 0
    && (if satsKnown then paid.btc == amount && CentsFor(sender, recipient, prices, paid.btc, paid.usd)
        else && paid.usd == (if recipient.Some? && recipient.value.usdAmount.Some? then recipient.value.usdAmount.value
                             else amount)
             && SatsFor(recipient, prices, paid.btc, paid.usd))
    && (if !lightning then fees == Amounts(0, 0)
        else if satsKnown
        then fees == Amounts(MaxProtocolFee(amount),
                             ConvertFromBtcToCeil(PriceRatio(paid.usd, paid.btc), MaxProtocolFee(amount)))
        else fees == Amounts(ConvertFromUsd(PriceRatio(paid.usd, paid.btc), MaxProtocolFee(amount)),
                             MaxProtocolFee(amount)))
  }

  /** There is a price for the payment, and it is not zero. */
  ghost predicate HasPrice(
    satsKnown: bool, amount: int, lightning: bool, sender: Currency, recipient: Option<Recipient>, prices: Prices)
  {
    exists paid, fees :: PricedAs(satsKnown, amount, lightning, sender, recipient, prices, paid, fees)
  }

  /** The conversion of a draft as the sender stage and the recipient leave it. */
  lemma ConversionPricesAs(d: Draft, prices: Prices, satsKnown: bool, amount: int)
    requires d.start.settlement == Lightning <==> d.recipient.None?
    requires if satsKnown then d.btcAmount == Some(amount) else d.btcAmount.None? && d.sender.currency == Usd
    requires d.usdAmount == if d.recipient.Some? && d.recipient.value.usdAmount.Some? then d.recipient.value.usdAmount
                            else if satsKnown then None else Some(amount)
    requires if d.recipient.Some? then d.btcFee == Some(0) && d.usdFee == Some(0)
             else if satsKnown then d.btcFee == Some(MaxProtocolFee(amount)) && d.usdFee.None?
             else d.usdFee == Some(MaxProtocolFee(amount)) && d.btcFee.None?
    requires amount > 0 && (d.recipient.Some? ==> PositiveIfSet(d.recipient.value.usdAmount))
    ensures var p := WithConversion(Ok(d), prices);
            p.Ok? ==>
              && p.value.draft == d
              && PricedAs(satsKnown, amount, d.recipient.None?, d.sender.currency, d.recipient, prices,
                          Amounts(p.value.btcAmount, p.value.usdAmount), Amounts(p.value.btcFee, p.value.usdFee))
    ensures WithConversion(Ok(d), prices).Ok?
       <==> HasPrice(satsKnown, amount, d.recipient.None?, d.sender.currency, d.recipient, prices)
  {
    var p := WithConversion(Ok(d), prices);
    if p.Ok? {
      assert PricedAs(satsKnown, amount, d.recipient.None?, d.sender.currency, d.recipient, prices,
          Amounts(p.value.btcAmount, p.value.usdAmount), Amounts(p.value.btcFee, p.value.usdFee));
    }
    if HasPrice(satsKnown, amount, d.recipient.None?, d.sender.currency, d.recipient, prices) {
      var paid, fees :|
        PricedAs(satsKnown, amount, d.recipient.None?, d.sender.currency, d.recipient, prices, paid, fees);
      assert p.Ok?;
    }
  }

  /** Paying an invoice: whatever flow comes out is for the invoice's sats or for the amount
      that was typed in, and its other amount is the price of that. */
  lemma InvoiceFlowPricedAs(
    localNodeIds: seq<string>, invoice: Invoice, uncheckedAmount: Option<real>, sender: Wallet,
    recipientLookup: Outcome<Recipient>, prices: Prices)
    requires PositiveIfSet(invoice.amount) && (recipientLookup.Ok? ==> PositiveIfSet(recipientLookup.value.usdAmount))
    ensures var p :=
              ConstructPaymentFlowBuilder(localNodeIds, invoice, uncheckedAmount, sender, recipientLookup, prices);
            p.Ok? && invoice.paymentHash != "" ==>
              var f, typed := WithoutRoute(p), Typed(uncheckedAmount);
              var lightning := invoice.destination !in localNodeIds;
              && f.Ok? && f.value.paymentHash == invoice.paymentHash && f.value.intraLedgerHash == ""
              && f.value.settlement == (if lightning then Lightning else IntraLedger)
              && f.value.sender == sender && f.value.cachedRoute.None?
              && (if lightning then f.value.recipient.None? else Ok(f.value.recipient.value) == recipientLookup)
              && f.value.inputAmount as real
                 == (if typed then uncheckedAmount.value else invoice.amount.value as real)
              && PricedAs(!typed || sender.currency == Btc, f.value.inputAmount, lightning, sender.currency,
                          f.value.recipient, prices, f.value.PaymentAmounts(), f.value.ProtocolFees())
  {
    var built := SenderStage(localNodeIds, invoice, uncheckedAmount, sender);
    SenderStageAmounts(localNodeIds, invoice, uncheckedAmount, sender);
    var satsKnown := !Typed(uncheckedAmount) || sender.currency == Btc;
    if built.Ok? {
      var next := if built.value.start.settlement == IntraLedger
                  then (if recipientLookup.Ok? then WithRecipientWallet(built, recipientLookup.value) else built)
                  else WithoutRecipientWallet(built);
      if next.Ok? && (recipientLookup.Ok? || built.value.start.settlement == Lightning) {
        ConversionPricesAs(next.value, prices, satsKnown, built.value.inputAmount);
      }
    }
  }

  /** The same for a payment between wallets. */
  lemma IntraledgerFlowPricedAs(
    intraLedgerHash: string, uncheckedAmount: real, sender: Wallet, recipient: Recipient, prices: Prices)
    requires intraLedgerHash != ""
    ensures var f := BuildIntraledgerFlow(intraLedgerHash, uncheckedAmount, sender, recipient, prices);
            f.Ok? ==>
              && f.value.paymentHash == "" && f.value.intraLedgerHash == intraLedgerHash
              && f.value.settlement == IntraLedger && f.value.sender == sender && f.value.cachedRoute.None?
              && f.value.recipient == Some(recipient.(usdAmount := None))
              && f.value.inputAmount as real == uncheckedAmount
              && PricedAs(sender.currency == Btc, f.value.inputAmount, false, sender.currency, f.value.recipient,
                          prices, f.value.PaymentAmounts(), f.value.ProtocolFees())
  {
    var next := WithRecipientWallet(
      WithSenderWallet(WithoutInvoice([], intraLedgerHash, uncheckedAmount), sender), recipient.(usdAmount := None));
    if next.Ok? { ConversionPricesAs(next.value, prices, sender.currency == Btc, next.value.inputAmount); }
  }

  /** It is made exactly for a whole amount in range, to another wallet, at a price. */
  lemma IntraledgerFlowMadeIff(
    intraLedgerHash: string, uncheckedAmount: real, sender: Wallet, recipient: Recipient, prices: Prices)
    ensures var f := BuildIntraledgerFlow(intraLedgerHash, uncheckedAmount, sender, recipient, prices);
            f.Ok? <==>
              && intraLedgerHash != "" && Whole(uncheckedAmount, 10000000000000.0) && recipient.id != sender.id
              && HasPrice(sender.currency == Btc, uncheckedAmount.Floor, false, sender.currency,
                          Some(recipient.(usdAmount := None)), prices)
  {
    var built := WithSenderWallet(WithoutInvoice([], intraLedgerHash, uncheckedAmount), sender);
    var next := WithRecipientWallet(built, recipient.(usdAmount := None));
    assert built.Ok? <==> Whole(uncheckedAmount, 10000000000000.0);
    assert built.Ok? ==> (next.Ok? <==> recipient.id != sender.id);
    if next.Ok? {
      ConversionPricesAs(next.value, prices, sender.currency == Btc, next.value.inputAmount);
    }
  }

  /** Past the first stages, a payment within the bank fails when the recipient is not found,
      when it is the sender, when a dollar recipient's invoice fixes the cents although an
      amount was typed in or fixes none and none was, or for want of a price. */
  lemma RecipientErrors(
    localNodeIds: seq<string>, invoice: Invoice, uncheckedAmount: Option<real>, sender: Wallet,
    recipientLookup: Outcome<Recipient>, prices: Prices)
    requires SenderStage(localNodeIds, invoice, uncheckedAmount, sender).Ok? && invoice.destination in localNodeIds
    requires HonestPrices(prices) && PositiveIfSet(invoice.amount)
    requires match recipientLookup case Ok(r) => PositiveIfSet(r.usdAmount) case Err(e) => e.ServiceError?
    ensures var p :=
              ConstructPaymentFlowBuilder(localNodeIds, invoice, uncheckedAmount, sender, recipientLookup, prices);
            var amount := SenderStage(localNodeIds, invoice, uncheckedAmount, sender).value.inputAmount;
            match recipientLookup
            case Err(e) => p == Err(e)
            case Ok(r) =>
              if r.id == sender.id then p == Err(SelfPayment)
              else if r.currency == Usd && (r.usdAmount.Some? <==> Typed(uncheckedAmount))
              then p == Err(InvalidBuilderState)
              else && (p.Err? ==> p.error == ZeroAmountForUsdRecipient || p.error.ServiceError?)
                   && (p.Ok? <==> HasPrice(!Typed(uncheckedAmount) || sender.currency == Btc, amount, false,
                                           sender.currency, Some(r), prices))
  {
    var built := SenderStage(localNodeIds, invoice, uncheckedAmount, sender);
    StartFits(localNodeIds, invoice, uncheckedAmount, sender);
    SenderStageAmounts(localNodeIds, invoice, uncheckedAmount, sender);
    if recipientLookup.Ok? {
      var next := WithRecipientWallet(built, recipientLookup.value);
      if next.Ok? {
        ConversionWellPriced(next.value, prices);
        ConversionPricesAs(next.value, prices, !Typed(uncheckedAmount) || sender.currency == Btc,
          built.value.inputAmount);
      }
    }
  }

  /** And one over Lightning only for want of a price. */
  lemma LightningErrors(
    localNodeIds: seq<string>, invoice: Invoice, uncheckedAmount: Option<real>, sender: Wallet,
    recipientLookup: Outcome<Recipient>, prices: Prices)
    requires SenderStage(localNodeIds, invoice, uncheckedAmount, sender).Ok? && invoice.destination !in localNodeIds
    requires HonestPrices(prices) && PositiveIfSet(invoice.amount)
    ensures var p :=
              ConstructPaymentFlowBuilder(localNodeIds, invoice, uncheckedAmount, sender, recipientLookup, prices);
            var amount := SenderStage(localNodeIds, invoice, uncheckedAmount, sender).value.inputAmount;
            && (p.Err? ==> p.error == InvalidZeroAmountPriceRatioInput || p.error.ServiceError?)
            && (p.Ok? <==> HasPrice(!Typed(uncheckedAmount) || sender.currency == Btc, amount, true,
                                    sender.currency, None, prices))
  {
    var built := SenderStage(localNodeIds, invoice, uncheckedAmount, sender);
    StartFits(localNodeIds, invoice, uncheckedAmount, sender);
    SenderStageAmounts(localNodeIds, invoice, uncheckedAmount, sender);
    ConversionWellPriced(built.value, prices);
    var satsKnown := !Typed(uncheckedAmount) || sender.currency == Btc;
    ConversionPricesAs(built.value, prices, satsKnown, built.value.inputAmount);
  }

  /** When the builder has failed by the sender stage, that first error comes out
      exactly when the recipient lookup does not fail with another one. */
  lemma FirstErrorSurvivesIff(
    localNodeIds: seq<string>, invoice: Invoice, uncheckedAmount: Option<real>, sender: Wallet,
    recipientLookup: Outcome<Recipient>, prices: Prices)
    requires SenderStage(localNodeIds, invoice, uncheckedAmount, sender).Err?
    ensures var first := SenderStage(localNodeIds, invoice, uncheckedAmount, sender).error;
            ConstructPaymentFlowBuilder(localNodeIds, invoice, uncheckedAmount, sender, recipientLookup, prices)
            == Err(first)
            <==> recipientLookup.Ok? || recipientLookup.error == first
  {
  }

  // ----- a flow priced above a cent a sat

  const TEN_CENTS_A_SAT := Quotes((sats: int) => Ok(10 * sats), (cents: int) => Ok(cents / 10))

  /** Ten cents sent at ten cents a sat: the one-cent fee becomes one sat, and a free
      route then refunds ten cents. */
  lemma RefundAboveParityExample(recipientLookup: Outcome<Recipient>)
    ensures HonestPrices(Prices(TEN_CENTS_A_SAT, TEN_CENTS_A_SAT, TEN_CENTS_A_SAT))
    ensures var f := WithoutRoute(ConstructPaymentFlowBuilder(
              [], Invoice("node", "hash", None), Some(10.0), Wallet("w", Usd, "a"), recipientLookup,
              Prices(TEN_CENTS_A_SAT, TEN_CENTS_A_SAT, TEN_CENTS_A_SAT)));
            && f.Ok? && f.value.Sound() && !f.value.WithinParity()
            && FlowReimbursement(f.value, 0).value.usd == 10 > f.value.usdFee
  {
    var d := Draft(
      Start(Lightning, "hash", "", Some(10.0), None, None, None, None), Wallet("w", Usd, "a"), None, 10, None,
      Some(10), None, Some(1));
    assert SenderStage([], Invoice("node", "hash", None), Some(10.0), Wallet("w", Usd, "a")) == Ok(d);
    assert WithConversion(Ok(d), Prices(TEN_CENTS_A_SAT, TEN_CENTS_A_SAT, TEN_CENTS_A_SAT))
      == Ok(Priced(d, 1, 10, 1, 1));
  }
}

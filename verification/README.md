# Galoy's money path in Dafny

Galoy is a custodial bitcoin bank. It holds sats and cents for its users, pays and receives
over Lightning, and keeps everything in a double-entry ledger. This project models the
parts that move money and proves what they keep, over all inputs, all runs and all
interleavings.

* **Exact arithmetic** (`Calculator`, `PriceRatios`, `Fees`): integer rounding, conversion
  at a price of *usd* cents per *btc* sats with the clamp to one unit, the fee cap, and the
  refund of an unused fee.
* **Payment flows** (`PaymentFlows`, `FlowBuilder`, `Translations`): the staged builder, the
  chains its callers assemble, and the flow that is rebuilt from the ledger when the stored
  one is gone.
* **Sending** (`LedgerBook`, `SendProtocol`, `SendSafety`, `SendTheorems`, `SendRaces`,
  `SendExclusion`, `SendLightning`): any number of senders and of updaters of pending payments. Each access
  to a lock, to the ledger or to the Lightning node is one step, and all steps interleave.
  What a sender is told about its payment need not be what became of it. `SendSafety`
  follows one attempt at a time: a step of the whole system moves an attempt by one of seven
  local moves, whatever the other attempts are, unless they pay the same invoice.
  `SendRaces` builds the runs that lose money and proves that there are no others.
  `SendExclusion` says what the lock of a wallet keeps out.
  `SendLightning` has the sequential code on a mutable ledger.
* **Receiving** (`ReceiveProtocol`, `OnChainReceipts`): workers and decliners racing over one
  hold invoice, and overlapping scans of on-chain transactions.
* **The ledger's entries** (`LedgerEntries`): the legs the entry builder writes for the two
  ends of a payment, the bank owner and the dealer, and the books they add up to.
* **Smaller parts**: withdrawal fees on the imbalance (`WithdrawalFees`), sliding-window
  limits (`SpendingLimits`), cursor pagination (`Connections`), rebalancing and swapping out
  (`HotWallet`), and the error attributes of a tracing span (`SpanErrors`).

`Outcomes` has the option and result types with the errors that flow building can return.
Amounts are unbounded integers, as the BigInt amounts of the source are.

## What is assumed of the services

* A lock excludes others per key, but may be lost at any moment. A sender notices this when
  it records its debit: the test of `signal.aborted` and the ledger write after it are one
  step. The receive paths ignore the signal and go on; what they promise while the lock is
  not lost, and what remains without it, are separate theorems.
* Settling a payment hash clears the pending marks of all transactions with that hash, in
  one step, and fails if there was none. A hash counts as recorded when a transaction with
  that hash is not pending. Receipts carry none of the hashes that are paid.
* A void writes each line of the entry the other way round, under the hash of the payment. A
  journal is voided once: the ledger library refuses to void it again.
* A Lightning payment ends once, as paid with a fee or as failed. A lookup tells how it
  ended. The call that pays it tells of success only if it is paid, but it may report any
  error at any time, whatever becomes of the payment.
* A Lightning invoice goes from open to held to settled, or to cancelled and then out of the
  node's sight. It is settled only when held. Cancelling a settled or unknown invoice changes
  nothing and reports success.
* Any other call to a service may fail, and then the process that made it stops there. One
  that fails before the process has cleared the pending mark costs nothing: the theorems about
  what a payment costs except only processes that stop between settling and refunding.

## Where the code does not do what it is meant to do

Each of these is a theorem with the exact condition, or a run that shows it.

* A sender takes every error but a timeout for a failed payment, settles and reverts. So every
  payment can be paid at the node and cost nothing (`PaidCanCostNothing`). A payment that is
  over costs what it should exactly when its settler was told how it ended and, if it failed,
  could refund it (`CostsWhatItShouldIff`). Updaters are always told.
* An updater refunds a failed payment from a dollar wallet in sats. If the account has no
  bitcoin wallet, it has already settled the payment when it finds that out, and stops: the
  user is charged for a failed payment, and nothing will ever look at it again.
* Pending marks are cleared by hash and not by journal, so that an updater can settle a second
  attempt at an invoice on behalf of the first. Together with the loss above: a payment of some
  amount can be forgotten exactly when another attempt pays the same invoice or the payment
  has nowhere to be refunded to (`ForgottenIff`). It can be refunded twice exactly when another
  attempt pays the same invoice and updaters refund it by a receipt, as they do with fees and
  with cents in sats (`RefundedTwiceIff`); a second void is refused. The refund theorems
  therefore ask that the attempt's hash be its own. `NoWalletOverdrawn` does not.
* Whether an invoice was paid before is checked under the lock of the wallet, and not of the
  hash. Two payments of one invoice within the bank, both checked before either is recorded, can
  both be recorded exactly when they are made from different wallets, whatever locks are lost
  (`PaidTwiceIff`). Two over Lightning can be pending together exactly then (`PendingTwiceIff`).
* Updaters leave a pending payment alone if its hash is on record as settled. A payment can be
  over at the node and pending for ever exactly when another attempt, over Lightning or within
  the bank, is made under its hash (`PendingForeverIff`), for example a first one that was
  reverted.
* The receive path re-reads the invoice under the lock but tests the copy it read before.
  `ReceiveProtocol` takes the test as a parameter. While the lock is not lost, two credits are
  reachable exactly with the source's test (`TwoCreditsIff`). Without the lock they are
  reachable with either (`LostLockTwoCreditsReachable`), and `CreditedAgainIff` says which
  workers make the second one. At most one credit is by a worker that saw the invoice held
  (`HeldWorkersCreditOnce`).
* Overlapping on-chain scans that lose their lock can both credit a transaction, exactly when
  both have outputs to credit (`CreditedTwiceIff`).
* A scan that fails after crediting some outputs of a transaction leaves the others uncredited
  for good, since the next scan finds the transaction on record (`EndedPassDecides`). This can
  happen without any lost lock, exactly when two outputs pay the wallet
  (`ShortForeverIffTwoPay`), or when scans know different addresses of it (`ShortForeverIff`).
* Because cancelling a settled invoice reports success, a decliner can delete the record of a
  credited invoice. The record can be lost exactly while a decliner is at work that saw the
  invoice held (`CreditedRecordLostIff`). "Marked paid implies credited" is not claimed at all.
* A builder that already failed answers its intraledger question with a promise, which is
  truthy. A failing recipient lookup then hides the first error (`FirstErrorSurvivesIff`).
* The updater looks a stored flow up by the amount in the wallet's currency, while a dollar
  wallet that pays an invoice with an amount stores it under sats (`UpdaterFindsFlowIff`).
  Refunds do not depend on this (`RebuiltFlowRefundsAlike`).
* A full fee refund can exceed the fee in cents when a sat is worth more than a cent
  (`ReimbursementExceedsIff`, `RefundAboveParityExample`).
* The entry builder does not balance a dollar-to-dollar entry whose fee rounds to no cents
  (`EntryBalancedIff`). No operation of the ledger facade writes such an entry
  (`BookBalanced`).
* Limits are checked before the wallet is locked, and on the amount without the fee
  (`WithinLimitAtEveryMoment`). With n payments at a time, n times the limit can be sent and
  no more (`OverlappingReachesLimits`, `OverlappingWithinLimits`).
* Pagination returns an empty page when the two cursors cross, where the specification
  ignores the second one (`AgreesWithSpecificationIff`). It denies a previous page when `first`
  leaves no more than `last`, and a next page when the cursor to stop before is not found
  (`FlagsAgreeIff`).

## Model

| member | source | states |
|---|---|---|
| `Calculator.DivRoundIsNearest` | backend/lib/domain/shared/calculator.js:17-24 | The result is the one nearest multiple, and the lower one on a tie, and no other number is |
| `Calculator.DivFloorIsFloor` | backend/lib/domain/shared/calculator.js:25-28 | The result is the greatest multiple not above the amount, and only that |
| `Calculator.DivCeilIsCeil` | backend/lib/domain/shared/calculator.js:29-35 | The result is the least multiple not below the amount, and only that |
| `Calculator.RoundingsOrdered` | backend/lib/domain/shared/calculator.js:17-35 | Floor, nearest and ceiling are ordered, and each is monotone |
| `PriceRatios.MakePriceRatio` | backend/lib/domain/payments/price-ratio.js:8-11 | A ratio is refused exactly when one of its amounts is zero; otherwise it can be divided by both ways |
| `PriceRatios.ScaleIsNearestOrOne` | backend/lib/domain/payments/price-ratio.js:12-27 | A positive amount converts to the nearest amount, or to 1 where that would be 0, and never to 0 |
| `PriceRatios.ScaleMonotone` | backend/lib/domain/payments/price-ratio.js:12-27 | Converting is monotone, with the clamp |
| `PriceRatios.ConversionsOrdered` | backend/lib/domain/payments/price-ratio.js:20-29 | Floor, clamped nearest and ceiling are ordered, monotone, and the ceiling of a positive amount is positive |
| `PriceRatios.ScaleBackExact` | backend/lib/domain/payments/price-ratio.js:12-27 | Going to a unit at least as fine and back is the identity |
| `PriceRatios.ScaleBackWithinOneUnit` | backend/lib/domain/payments/price-ratio.js:12-27 | Going there and back in either direction moves an amount by at most one unit of the coarser currency |
| `PriceRatios.CentsRoundTripExactIffParity` | backend/lib/domain/payments/price-ratio.js:12-27 | Cents to sats and back is the identity on all amounts exactly for prices of at most a cent per sat |
| `PriceRatios.SatsRoundTripWithinOneCent` | backend/lib/domain/payments/price-ratio.js:12-27 | Sats to cents and back moves any amount by at most one cent's worth, at every price |
| `Fees.MaxProtocolFeeIsHalfPercent` | backend/lib/domain/payments/ln-fees.js:10-19 | The capped fee is the nearest amount to half a percent, at least 1 and at most the amount |
| `Fees.ReimbursementWithinCeilFee` | backend/lib/domain/ledger/fee-reimbursement.js:7-19 | Against a fee rounded up to cents, there is a refund exactly for actual fees within the prepaid one; it is the difference in sats and at most the fee in cents |
| `Fees.KeptCentsCoverActualFee` | backend/lib/domain/ledger/fee-reimbursement.js:7-19 | The cents kept cover the actual fee at the payment's price, and by less than two cents |
| `Fees.UsdFeeReimbursementExceedsIff` | backend/lib/domain/ledger/fee-reimbursement.js:7-19 | Against a fee set in cents, the refund exceeds the fee exactly when all of it is refunded and its sats are worth over half a cent more than it |
| `Fees.UsdFeeReimbursementWithinFee` | backend/lib/domain/ledger/fee-reimbursement.js:7-19 | At prices of at most a cent per sat the refund never exceeds a fee set in cents |
| `Fees.UsdFeeReimbursementWithinTotal` | backend/lib/domain/ledger/fee-reimbursement.js:7-19 | At every price the refund is within the fee and the payment's cents together |
| `PaymentFlows.ReimbursementWithinTotal` | backend/lib/app/wallets/reimburse-fee.js:35-61 | For every flow the builder can make and at every price, a refund is made exactly for actual fees within the prepaid one, is the difference in sats, and in cents is within the whole payment |
| `PaymentFlows.ReimbursementWithinPrepaid` | backend/lib/app/wallets/reimburse-fee.js:35-61 | At parity where fees come from cents, and always otherwise, the refund stays within the prepaid fee in both currencies |
| `PaymentFlows.ReimbursementExceedsIff` | backend/lib/domain/ledger/fee-reimbursement.js:7-19 | The exact condition, in the flow's own amounts, under which a refund in cents exceeds the prepaid fee |
| `PaymentFlows.RouteKnownIff` | backend/lib/domain/payments/payment-flow.js:23-37 | A fee counts as known exactly when a route is cached that carries the sats of the payment |
| `FlowBuilder.SenderStageReady` | backend/lib/domain/payments/payment-flow-builder.js:81-131 | The sender stage ends with a checked positive amount in the currency it was given in and a matching fee; its impossible branch is not reached |
| `FlowBuilder.ConversionWellPriced` | backend/lib/domain/payments/payment-flow-builder.js:170-301 | From such a state every conversion branch gives positive amounts and fees that fit the settlement, or a zero price or a price error; the impossible branch is not reached |
| `FlowBuilder.SenderStageAmounts` | backend/lib/domain/payments/payment-flow-builder.js:16-131 | The first stages succeed exactly for an invoice with an amount or a whole amount in range that was typed in; which amount and fee are then known, and what the settlement is |
| `FlowBuilder.SenderStageErrors` | backend/lib/domain/payments/payment-flow-builder.js:81-131 | Which error an amount gets that is too large, not whole or not positive, and an invoice without an amount |
| `FlowBuilder.ConversionPricesAs` | backend/lib/domain/payments/payment-flow-builder.js:170-301 | A draft is converted exactly when there is a price for it: the mid price for equal currencies and for sats over Lightning, the price of buying dollars from a bitcoin to a dollar wallet, the price of selling them from a dollar wallet to Lightning or to a bitcoin wallet, and none where the recipient fixed the cents; with the fees that go with it |
| `FlowBuilder.InvoiceChainSound` | backend/lib/app/payments/helpers.js:16-53 | The whole chain for an invoice ends in an error other than the impossible ones, or in a flow with exactly the invoice's hash, positive amounts and fees both zero intraledger and both positive over Lightning |
| `FlowBuilder.InvoiceFlowPricedAs` | backend/lib/app/payments/helpers.js:16-53 | The flow for an invoice is for exactly the invoice's sats or the amount typed in, to the recipient that was found, and its other amount and fees are the price of that |
| `FlowBuilder.RecipientErrors` | backend/lib/domain/payments/payment-flow-builder.js:136-169 | Within the bank it fails exactly when the recipient is not found or is the sender, when the cents are fixed twice or not at all, or for want of a price, with these errors |
| `FlowBuilder.LightningErrors` | backend/lib/domain/payments/payment-flow-builder.js:170-301 | Over Lightning it fails exactly for want of a price |
| `FlowBuilder.RouteFlowSound` | backend/lib/domain/payments/payment-flow-builder.js:350-371 | A known route gives a flow for the same payment, with that route, whose sat fee is the route's fee rounded up and whose cent fee is the ceiling of that |
| `FlowBuilder.IntraledgerChainSound` | backend/lib/app/payments/send-intraledger.js:57-90 | The chain for a payment between wallets ends in an error other than the impossible ones, or in a free flow with only the generated hash |
| `FlowBuilder.IntraledgerFlowPricedAs` | backend/lib/app/payments/send-intraledger.js:57-90 | The flow between wallets is for exactly the amount typed in and its price, and free |
| `FlowBuilder.IntraledgerFlowMadeIff` | backend/lib/app/payments/send-intraledger.js:57-90 | It is made exactly for a whole amount in range, to another wallet, when there is a price |
| `FlowBuilder.FirstErrorSurvivesIff` | backend/lib/app/payments/helpers.js:29-37 | An error of the first stages is what the caller gets exactly when the needless recipient lookup does not fail otherwise |
| `FlowBuilder.RefundAboveParityExample` | backend/lib/domain/shared/primitives.js:31 | At a price of ten cents a sat the builder makes a flow with a fee of one cent that is refunded ten |
| `Translations.RebuiltFlowRefundsAlike` | backend/lib/app/payments/translations.js:8-67 | The flow rebuilt from the recorded send has the same sender, hash, amounts and fees, its input amount is the payment in the wallet's currency, and it gives the same refund for every actual fee |
| `Translations.FlowFromTransactionIff` | backend/lib/app/payments/translations.js:8-67 | A transaction gives a flow exactly when it is a payment that has all a flow needs; its amounts, fees, hash and sender, and the errors otherwise |
| `Translations.UpdaterFindsFlowIff` | backend/lib/app/payments/update-pending-payments.js:111-124 | Debit less fee recovers the payment in the sender's currency, and it is the key of the stored flow exactly for a bitcoin wallet, an amount chosen by the sender, or equal amounts |
| `LedgerBook.Settle` | backend/lib/services/ledger/facade.js:122-134 | All and only the transactions of a hash lose their pending mark, and nothing else changes |
| `LedgerBook.SettleKeepsBalance` | backend/lib/services/ledger/send.js:81-93 | Settling changes no balance |
| `SendSafety.RefundShape` | backend/lib/app/payments/update-pending-payments.js:130-174 | A refund is at most one settled transaction of its attempt, under its hash |
| `SendSafety.RefundWithinSend` | backend/lib/app/wallets/reimburse-fee.js:35-105 | A refund gives back at most what was sent, in both currencies |
| `SendSafety.StepMoves` | backend/lib/app/payments/send-lightning.js:369-479 | Every step of the system, of whatever process and after whatever answer, is one allowed move of an attempt whose hash is its own; an updater that has nowhere to refund to moves on without a refund |
| `SendSafety.MoveKeeps` | backend/lib/app/payments/send-lightning.js:406-477 | Every allowed move keeps an attempt in one of its four shapes: unrecorded, pending, settled, or settled with the one refund that its settler's answer calls for |
| `SendSafety.OnlySettlerRefunds` | backend/lib/app/payments/update-pending-payments.js:125-174 | When an attempt becomes refunded, the refund is by the process that settled it, in its refunding step, and an updater is done with it |
| `SendSafety.RecordKeepsWallets` | backend/lib/app/payments/send-lightning.js:369-420 | A debit recorded under the wallet's lock is covered by the balance read under it, whatever the others did meanwhile |
| `SendSafety.RunKeepsAttempt` | backend/lib/app/payments/update-pending-payments.js:100-176 | In every state of every run an attempt with its own hash is in order, whatever the other attempts are: its shape, what updaters know of it, and that whoever settled it refunds it, unless it stopped between the two or had nothing or nowhere to refund |
| `SendTheorems.FlowsGiveBoundedAttempts` | backend/lib/app/payments/send-lightning.js:353-420 | Flows as the builder makes them meet the bounds of the protocol theorems, at every price |
| `SendTheorems.BalanceTestAgrees` | backend/lib/domain/payments/payment-flow.js:56-68 | The test on the balance passes exactly when the balance covers what the protocol debits |
| `SendTheorems.SendsAreEntries` | backend/lib/services/ledger/facade.js:48-67 | What the protocol records for a send and its reversal is what the legs of the entry and of its void do to the wallet |
| `SendTheorems.RefundsAreEntries` | backend/lib/services/ledger/facade.js:69-87 | The same for the receipts by which a fee, and a failed payment in cents, are refunded |
| `SendTheorems.TransfersAreEntries` | backend/lib/services/ledger/facade.js:101-120 | The same for both wallets of an intraledger payment |
| `SendTheorems.AtMostOneRefund` | backend/lib/app/payments/update-pending-payments.js:100-174 | In every state of every run an attempt with its own hash has at most one send and one refund, the refund after settling and by the process whose settling cleared the mark |
| `SendTheorems.NetTakenWithinTotal` | backend/lib/app/payments/send-lightning.js:406-477 | At every moment of every run the net amount taken is between zero and the recorded total, in both currencies |
| `SendTheorems.SettledCostsAsTold` | backend/lib/app/payments/send-lightning.js:448-477 | When the settler is done, and did not stop between settling and refunding, the payment has cost what its settler leaves it at: nothing after a failure that could be refunded, the whole if it could not, and else the total less the refund due |
| `SendTheorems.CostsWhatItShouldIff` | backend/lib/app/payments/send-lightning.js:448-467 | It has cost what it should for how it ended at the node exactly when: for a failure, the sender settled it or it can be refunded or is for nothing; for a paid one, the settler was told so or nothing is owed; and always if it is paid and an updater settled it |
| `SendTheorems.FailedIsNeverForgotten` | backend/lib/app/wallets/reimburse-failed-usd.js:61-70 | A failed payment is at every moment still pending, being handled by its settler, given back, or stopped at between settling and refunding, or it was settled by an updater that has nowhere to refund it to and it costs the whole |
| `SendTheorems.PaidFlowCostsItsFeeIff` | backend/lib/app/wallets/reimburse-fee.js:49-61 | A paid flow costs the payment and its fee in sats, the prepaid one if the route was known and else the smaller of actual and prepaid, exactly when its settler was told so |
| `SendTheorems.PaidFlowCostsInCents` | backend/lib/app/wallets/reimburse-fee.js:49-61 | In cents it then costs at most payment and prepaid fee, and less than the payment exactly when a refund above the prepaid fee was due, so not at parity |
| `SendTheorems.WalletPaysNet` | backend/lib/app/wallets/reimburse-failed-usd.js:35-86 | What an attempt has cost was paid by its own wallet and no other moves, except that a failed payment in cents ended by an updater is given back in sats to the account's bitcoin wallet |
| `SendTheorems.IntraledgerMovesMoney` | backend/lib/app/payments/send-lightning.js:248-317 | In every state of every run the debit and the credit of an intraledger payment are recorded together and once, each in its wallet's currency, or not at all |
| `SendTheorems.NoWalletOverdrawn` | backend/lib/app/payments/send-intraledger.js:177-234 | No run of Lightning and intraledger sends takes a balance below zero, with any loss of locks and any sharing of hashes |
| `SendExclusion.PaidTwiceIff` | backend/lib/app/payments/send-lightning.js:248-317 | Two intraledger payments under one hash can both be recorded exactly when their wallets differ, with any loss of locks |
| `SendExclusion.PendingTwiceIff` | backend/lib/app/payments/send-lightning.js:369-420 | Two Lightning payments under one hash can be pending at the same time exactly when their wallets differ |
| `SendExclusion.RunKeepsOut` | backend/lib/app/payments/send-lightning.js:369-405 | In every run, while the debit of one attempt stands, a rival in the same wallet has none and is not past its check with the lock in hand |
| `SendRaces.PaidCanCostNothing` | backend/lib/services/lnd/index.js:631-666 | Every attempt, with every fee, has a run in which it is paid, no call fails, all is over, and it has cost nothing |
| `SendRaces.ForgottenIff` | backend/lib/app/payments/update-pending-payments.js:100-174 | An attempt can end up failed, charged, no longer pending and with nobody at work on it, without any failing call, exactly when it is for an amount and another attempt pays the same invoice or it is in cents and the account has no bitcoin wallet |
| `SendRaces.RefundedTwiceIff` | backend/lib/app/payments/update-pending-payments.js:100-174 | An attempt can be refunded twice exactly when another attempt pays the same invoice and there is an end that updaters refund by a receipt and not by voiding the journal |
| `SendRaces.SomethingForgottenIff` | backend/lib/app/payments/send-lightning.js:371-376 | Some payment can be forgotten exactly when one that is for an amount shares its invoice or cannot be refunded, although a sender stops while another one is pending |
| `SendRaces.PendingForeverIff` | backend/lib/app/payments/update-pending-payments.js:100-109 | Some run ends the payment at the node and leaves the attempt pending in every state that can follow, exactly when another attempt of either kind has its hash |
| `SendRaces.StepKeepsStuck` | backend/lib/app/payments/update-pending-payments.js:100-109 | Once a hash is both pending and recorded and nobody is past the checks, no step of any process clears the mark |
| `SendRaces.SoleCanBeSettled` | backend/lib/app/payments/update-pending-payments.js:62-136 | From every state in which a payment is over and alone on its hash, an updater can clear its mark |
| `SendLightning.SendKeepsSolvent` | backend/lib/app/payments/send-lightning.js:369-479 | A send from a covered wallet leaves no balance negative, and a failed or already paid one leaves all as they were |
| `SendLightning.SendCosts` | backend/lib/app/payments/send-lightning.js:406-477 | What a send has cost each wallet by its end, for every result: nothing, the whole, or the whole less the refund due for the actual fee |
| `SendLightning.UpdateOneEffect` | backend/lib/app/payments/update-pending-payments.js:100-176 | Updating a payment that is pending or settled, by whomever, ends it if it is pending and its fate is known, and changes no other attempt |
| `SendLightning.UpdateAllEffect` | backend/lib/app/payments/update-pending-payments.js:36-58 | After working through a list, repetitions and payments that ended since included, exactly those still pending whose fate is known are settled and refunded, once each |
| `SendSafety.RecordedIffSettled` | backend/lib/services/ledger/index.js:256-267 | The hash of its only user counts as recorded exactly when the attempt is settled |
| `SendLightning.Bank.ExecutePaymentViaLn` | backend/lib/app/payments/send-lightning.js:353-479 | The new ledger for every answer of the node and every failing call, exactly when the send is refused as in transit or uncovered, and which result each answer gives |
| `SendLightning.Bank.PayAndSettle` | backend/lib/app/payments/send-lightning.js:406-477 | From the recorded debit: pending, settled with its refund, or stopped at the call that failed |
| `SendLightning.Bank.UpdatePendingPayment` | backend/lib/app/payments/update-pending-payments.js:62-180 | The new ledger, about which the two lemmas above speak; an error is reported exactly when nothing was pending any more, the refund has no wallet to go to, or the journal is voided already |
| `SendLightning.Bank.UpdatePendingPayments` | backend/lib/app/payments/update-pending-payments.js:36-58 | The new ledger after the loop over the list |
| `ReceiveProtocol.RunKeepsInv` | backend/lib/app/wallets/update-pending-invoices.js:78-298 | Over all runs, whoever is past the node has it settled, one worker settles it, credits are of settled invoices, and until it is lost the lock excludes |
| `ReceiveProtocol.CreditedAtMostOnce` | backend/lib/app/wallets/update-pending-invoices.js:136-203 | With the test on the re-read record, no run credits an invoice twice before the lock is lost |
| `ReceiveProtocol.CreditedIsSettledAndPaid` | backend/lib/app/wallets/update-pending-invoices.js:158-203 | From its credit on an invoice is settled at the node, and its record is marked paid unless a decliner saw it held, with either test and without any lock |
| `ReceiveProtocol.CreditedRecordLostIff` | backend/lib/app/wallets/update-pending-invoices.js:277-296 | The paid record of a credited invoice can be lost from here on exactly when a decliner is at work that saw the invoice held |
| `ReceiveProtocol.CanceledStays` | backend/lib/services/lnd/index.js:348-367 | A cancelled invoice stays cancelled or unknown to the node, whoever works on it |
| `ReceiveProtocol.NeverCreditedAndCanceled` | backend/lib/app/wallets/update-pending-invoices.js:248-298 | No run both credits and cancels an invoice, in whatever order |
| `ReceiveProtocol.HeldWorkersCreditOnce` | backend/lib/app/wallets/update-pending-invoices.js:158-203 | With either test and without any lock, at most one credit comes from workers that saw the invoice held |
| `ReceiveProtocol.CreditsIff` | backend/lib/app/wallets/update-pending-invoices.js:136-203 | Exactly when a worker, from wherever it is in the locked section, credits the wallet |
| `ReceiveProtocol.CreditedAgainIff` | backend/lib/app/wallets/update-pending-invoices.js:136-203 | Exactly which workers credit an invoice that is credited already, with the lock or after losing it |
| `ReceiveProtocol.TwoCreditsIff` | backend/lib/app/wallets/update-pending-invoices.js:145 | While no lock is lost, an invoice can be credited twice exactly with the test as written |
| `ReceiveProtocol.LostLockTwoCreditsReachable` | backend/lib/services/lock/index.js:58-74 | Once the lock is lost it can be credited twice with either test |
| `ReceiveProtocol.CreditedRecordDeletedReachable` | backend/lib/app/wallets/update-pending-invoices.js:277-296 | The record of a credited invoice can be deleted by a decliner |
| `ReceiveProtocol.AloneEnds` | backend/lib/app/wallets/update-pending-invoices.js:78-247 | What a worker of the protocol leaves behind when it runs alone: exactly when it settles, credits, marks and deletes, whichever call fails |
| `ReceiveProtocol.AloneEndsDeclining` | backend/lib/app/wallets/update-pending-invoices.js:110-121 | The same for a received amount that is zero or too large: a held invoice is cancelled and its record deleted |
| `ReceiveProtocol.AloneLeads` | backend/lib/app/wallets/update-pending-invoices.js:78-247 | All it does are steps of the protocol |
| `ReceiveProtocol.InvoiceDesk.UpdatePendingInvoice` | backend/lib/app/wallets/update-pending-invoices.js:78-247 | Alone, for every received amount and whichever call fails, record, node and credits end as a worker of the protocol leaves them; a good payment is credited once, marked and settled; and exactly when the worker reports that there was nothing to do |
| `ReceiveProtocol.InvoiceDesk.DeclineHeldInvoice` | backend/lib/app/wallets/update-pending-invoices.js:248-298 | The new state of node and record, and exactly when declining counts as processed, which an error does |
| `OnChainReceipts.RunKeepsInv` | backend/lib/app/wallets/update-on-chain-receipt.js:68-134 | Over all interleavings of passes, what each pass has recorded is the matching outputs up to where it is, and passes exclude one another until the lock is lost |
| `OnChainReceipts.PassCreditsOutputs` | backend/lib/app/wallets/update-on-chain-receipt.js:88-132 | With or without the lock, a pass credits the matching outputs in order, never more than the transaction pays |
| `OnChainReceipts.MatchingIsPaidAt` | backend/lib/app/wallets/update-on-chain-receipt.js:89-90 | The matching amounts are those at the positions whose address the wallet owns, one for each and in order |
| `OnChainReceipts.PickUnique` | backend/lib/app/wallets/update-on-chain-receipt.js:89-90 | There is only one such list of positions |
| `OnChainReceipts.CreditedByOnePass` | backend/lib/app/wallets/update-on-chain-receipt.js:68-134 | Until the lock is lost, a wallet and transaction are credited by one pass only, never above the outputs that pay the wallet, and by exactly these once that pass ends without a failing call |
| `OnChainReceipts.CreditedTwiceIff` | backend/lib/app/wallets/update-on-chain-receipt.js:76-88 | Two passes can both credit a wallet for a transaction exactly when each has outputs to credit, and only after the lock was lost |
| `OnChainReceipts.EndedPassLeavesCredit` | backend/lib/app/wallets/update-on-chain-receipt.js:68-134 | After a pass without a failing call there is a credit, by whichever pass, if anything pays the wallet |
| `OnChainReceipts.EndedPassDecides` | backend/lib/app/wallets/update-on-chain-receipt.js:76-132 | Until the lock is lost, what a pass had credited when it ended, failed or not, is all the wallet ever gets for the transaction, and everything exactly when no output after its last one pays |
| `OnChainReceipts.ShortForeverIff` | backend/lib/app/wallets/update-on-chain-receipt.js:76-132 | A transaction can stay credited with something else than it pays, without a lost lock, exactly when some pass has a point to stop at whose credits are not none and not all |
| `OnChainReceipts.ShortForeverIffTwoPay` | backend/lib/app/wallets/update-on-chain-receipt.js:76-132 | If all passes know the same addresses, that is exactly when two outputs pay the wallet |
| `OnChainReceipts.ScanAdvances` | backend/lib/app/wallets/update-on-chain-receipt.js:38-134 | A scan, with any calls failing: what was on record stays, an unlisted or unconfirmed pair gets nothing, and a listed one its matching outputs in order and once, all of them if no call for it failed |
| `OnChainReceipts.ScanCreditsOwnedOutputs` | backend/lib/app/wallets/update-on-chain-receipt.js:38-134 | A wallet listed by a confirmed transaction and not credited before is credited exactly for the outputs whose address it owns, if no call for it fails |
| `OnChainReceipts.StopsAtFailure` | backend/lib/app/wallets/update-on-chain-receipt.js:88-110 | A wallet not credited before gets the matching outputs before the one whose recording fails, and all if that one is not its own |
| `OnChainReceipts.ReceiptBook.ProcessTxForWallet` | backend/lib/app/wallets/update-on-chain-receipt.js:68-134 | The new receipts for one wallet and transaction, about which the lemma above speaks, and exactly when an error is returned |
| `OnChainReceipts.ReceiptBook.UpdateOnChainReceipt` | backend/lib/app/wallets/update-on-chain-receipt.js:38-63 | The new receipts after the two loops, which go on after an error |
| `LedgerEntries.EntryBalancedIff` | backend/lib/services/ledger/domain/entry-builder.js:7-165 | An entry balances in sats and in cents exactly unless it is between dollar accounts with a fee of no cents but some sats, and then it is off by that fee |
| `LedgerEntries.EntryEffects` | backend/lib/services/ledger/domain/entry-builder.js:24-138 | Who gains and loses what: the sender the whole, the recipient all but the fee, the owner the fee, the dealer the exchange, and nobody else anything |
| `LedgerEntries.EndsEffects` | backend/lib/services/ledger/domain/entry-builder.js:44-138 | An account that is not the bank's moves by the amounts in its own currency, also as both ends of an entry |
| `LedgerEntries.ConversionNet` | backend/lib/services/ledger/domain/entry-builder.js:95-125 | What the dealer gains in each currency for each pair of currencies |
| `LedgerEntries.WithoutZerosKeepsNet` | backend/lib/services/ledger/domain/entry-builder.js:161-165 | Dropping empty lines changes no total |
| `LedgerEntries.WithoutZerosKeepsNetOf` | backend/lib/services/ledger/domain/entry-builder.js:161-165 | Dropping empty lines changes no account |
| `LedgerEntries.WithoutZerosKeepsLegs` | backend/lib/services/ledger/domain/entry-builder.js:161-165 | The lines kept are exactly those with an amount |
| `LedgerEntries.VoidUndoes` | backend/lib/services/ledger/facade.js:136-151 | An entry and its void leave every account and every total as they were |
| `LedgerEntries.SendEffects` | backend/lib/services/ledger/facade.js:48-67 | A send takes the whole from the sender, gives the owner the fee and Lightning the rest |
| `LedgerEntries.ReceiptEffects` | backend/lib/services/ledger/facade.js:69-87 | A receipt gives the recipient the amount and the owner the fee, both out of Lightning |
| `LedgerEntries.TransferEffects` | backend/lib/services/ledger/facade.js:101-120 | A transfer moves the amount, each end in its own currency, and the owner gets nothing |
| `LedgerEntries.BookBalanced` | backend/lib/services/ledger/facade.js:48-120 | After any sends, receipts, transfers and voids the book balances in sats and in cents |
| `LedgerEntries.LndMirrorsTraffic` | backend/lib/services/ledger/facade.js:48-87 | The Lightning account holds exactly what went out less what came in |
| `LedgerEntries.LiabilitiesBacked` | backend/lib/services/ledger/facade.js:48-120 | After any postings all other bitcoin accounts together hold what came in and did not go out, and the dealer owes exactly the cents all others hold |
| `LedgerEntries.Entry.CreditAccount` | backend/lib/services/ledger/domain/entry-builder.js:91-132 | The conversion and credit lines are added to the entry and the empty lines are gone |
| `LedgerEntries.Entry.RemoveZeroAmountEntries` | backend/lib/services/ledger/domain/entry-builder.js:161-165 | The entry keeps the lines with an amount, in order |
| `LedgerEntries.MainBook.RecordSend` | backend/lib/services/ledger/facade.js:48-67 | The book grows by the lines of this send, whose effects are the lemmas above |
| `LedgerEntries.MainBook.RecordReceive` | backend/lib/services/ledger/facade.js:69-87 | The book grows by the lines of this receipt |
| `LedgerEntries.MainBook.RecordIntraledger` | backend/lib/services/ledger/facade.js:101-120 | The book grows by the lines of this transfer |
| `WithdrawalFees.BaseIsExcessGrowth` | backend/lib/domain/wallets/withdrawal-fee-calculator.js:7 | What is charged for is the growth of the imbalance beyond the threshold, which rises with the imbalance seen |
| `WithdrawalFees.BaseByThreshold` | backend/lib/domain/wallets/withdrawal-fee-calculator.js:7 | Nothing is charged for below the threshold, everything above it, and in between what lies above |
| `WithdrawalFees.BankFeeIsLeast` | backend/lib/domain/wallets/withdrawal-fee-calculator.js:8 | The fee is the minimum, or the least number of sats that covers the ratio |
| `WithdrawalFees.ImbalanceFollowsVolumes` | backend/lib/domain/ledger/imbalance-calculator.js:10-37 | The imbalance is zero without volume, rises by what comes in over Lightning or goes out on chain, and falls by the other two; flat, it is always zero |
| `WithdrawalFees.FeeFollowsVolumes` | backend/lib/domain/ledger/imbalance-calculator.js:10-37 | How the fee of a withdrawal follows each of the four volumes |
| `WithdrawalFees.BaseTelescopes` | backend/lib/domain/wallets/withdrawal-fee-calculator.js:6-13 | The parts are charged for at least what the whole would be, and for exactly that if each sees exactly the parts before it |
| `WithdrawalFees.SplittingNeverCheaper` | backend/lib/domain/wallets/withdrawal-fee-calculator.js:6-13 | Splitting a withdrawal into any parts, each seeing at least the parts before it, never lowers the total bank fee |
| `WithdrawalFees.SplittingWithdrawalsNeverCheaper` | backend/lib/domain/ledger/imbalance-calculator.js:10-37 | The same with the imbalance computed from the volumes, to which earlier parts are added with their fees |
| `SpendingLimits.WithinLimitAtEveryMoment` | backend/lib/domain/accounts/new-limits-checker.js:7-28 | If checks and records alternate, the amounts sent within any 24 hours stay within the limit at every moment, and the debits exceed it by at most the last fee |
| `SpendingLimits.PassesIffItFits` | backend/lib/domain/accounts/new-limits-checker.js:7-28 | A payment passes exactly when with the debits of the 24 hours before it stays within the limit |
| `SpendingLimits.VolumeConcat` | backend/lib/app/payments/helpers.js:128-150 | The volume of payments is the sum of theirs |
| `SpendingLimits.VolumeOfOne` | backend/lib/app/payments/helpers.js:128-150 | One payment counts with its fee if it was recorded since, and else not at all |
| `SpendingLimits.FreePaymentsDebitWithinLimit` | backend/lib/app/payments/helpers.js:80-150 | Without fees the debits stay within the limit as well |
| `SpendingLimits.OneLaneAlternates` | backend/lib/app/payments/helpers.js:128-150 | Payments made one at a time are the case of one lane |
| `SpendingLimits.OverlappingWithinLimits` | backend/lib/app/payments/helpers.js:128-150 | With n payments at a time, each checked against all that was recorded before, the amounts sent within any 24 hours are at most n times the limit, and the debits exceed that by at most a fee for each |
| `SpendingLimits.OverlappingReachesLimits` | backend/lib/app/payments/helpers.js:128-150 | n payments of the limit, all checked before any is recorded, reach n times the limit, for every n |
| `Connections.FindFrom` | backend/src/graphql/connections.ts:32-37 | The first node with the id, or none |
| `Connections.PageRange` | backend/src/graphql/connections.ts:29-56 | The offsets narrowed step by step are the cursors' range cut to first and last; it throws exactly for a negative one |
| `Connections.ConnectionFromArray` | backend/src/graphql/connections.ts:20-77 | The page, its cursors and its flags, about which the lemmas below speak |
| `Connections.AgreesWithSpecificationIff` | backend/src/graphql/connections.ts:24-61 | The edges are those of section 4.4 of the GraphQL Cursor Connections Specification exactly when the cursors do not cross, or that page is empty too |
| `Connections.PageFlags` | backend/src/graphql/connections.ts:62-75 | Exactly when there is a previous and a next page, for all arguments whose cursors do not cross |
| `Connections.FlagsAgreeIff` | backend/src/graphql/connections.ts:62-75 | The flags are those of section 4.4 of the GraphQL Cursor Connections Specification exactly unless `first` leaves no more than `last`, or the cursor to stop before is not found |
| `Connections.ForwardReturnsAll` | backend/src/graphql/connections.ts:32-75 | Following endCursor while there is a next page returns every node exactly once and in order, for every page size |
| `Connections.BackwardReturnsAll` | backend/src/graphql/connections.ts:37-75 | The same backwards with startCursor |
| `HotWallet.CycleConserves` | backend/src/servers/cron.ts:78-79 | A rebalance and a swap lose nothing, do not take the chain wallet below its minimum or outbound below zero, and only fill cold storage |
| `HotWallet.WithdrawsIff` | backend/lib/domain/cold-storage/index.js:6-14 | Exactly when funds go to cold storage, and that they are what lies above the minimum |
| `HotWallet.SwapsOutIff` | backend/lib/domain/swap/swap-out-checker.js:9-17 | Exactly when the fixed amount is swapped out |
| `HotWallet.CyclesComeToRest` | backend/lib/domain/swap/swap-out-checker.js:9-17 | Repeated cycles terminate, with the hot wallet within its maximum or nothing worth a transaction in it, the chain wallet at its level or the channels too low, and with all of that kept |
| `SpanErrors.LatestWorstUnique` | backend/src/services/tracing.ts:267-278 | There is one latest exception of the highest level |
| `SpanErrors.RankOrdered` | backend/lib/domain/shared/errors.js:4-9 | The levels rise with severity, and a level that is not set is below all |
| `SpanErrors.ShownLevelIsHighest` | backend/src/services/tracing.ts:267-288 | The span shows a critical level exactly when one was recorded, and an informational one exactly when all are |
| `SpanErrors.NewWorst` | backend/src/services/tracing.ts:267-278 | A new exception takes its place exactly when it ranks at least as high |
| `SpanErrors.WorstUpdated` | backend/src/services/tracing.ts:280-288 | The span goes on showing the latest worst exception |
| `SpanErrors.Span.RecordException` | backend/src/services/tracing.ts:280-301 | After any exceptions the span shows the latest worst one and lists all of them in order without gaps |

## Left out

- External on-chain sends: their debit uses fees computed anew after the balance was compared, so there is no non-negative balance to prove.
- The payment-hash lock of the updaters: the runs of the send protocol include those in which it gives no protection, so every theorem over all runs holds with it too, and the runs that are built have one updater only.
- SendRaces.ForgottenIff: for attempts with a payment hash that is not empty, without which the updater throws; likewise `SendRaces.RefundedTwiceIff` and `SendRaces.PendingForeverIff`.
- The dealer and bank owner in the send protocol: its ledger has the users' wallets only; their lines are in `LedgerEntries`.
- The commit of the ledger library, which may refuse an entry, and its own storage.
- SendLightning.Bank: a value-typed ledger of one process; interleaving is in `SendProtocol`.
- FlowBuilder.InvoiceChainSound: prices are any functions that return non-negative amounts, and services may fail only with service errors; invoices with an empty payment hash are not considered.
- PaymentFlows.Flow.RouteDetails: without the outgoing node's key and the recorded exception.
- SpendingLimits.WithinLimitAtEveryMoment: for dollar wallets; the volume of a bitcoin wallet is converted at the price of the moment, at which nothing bounds the amounts sent earlier.
- HotWallet.CyclesComeToRest: without outside flows and fees, and with a positive swap amount.
- WithdrawalFees.SplittingNeverCheaper: the fee ratio is a rational number and not a floating-point one.
- OnChainReceipts.Receipt: the sats of the output; the deposit fee that the bank keeps of each is not part of the model.
- OnChainReceipts.ScanAdvances: one list of outputs per transaction hash and one set of addresses per wallet id.
- Connections.AgreesWithSpecificationIff: nodes with distinct non-empty ids.
- Floating-point prices, display currencies and the rounding of amounts to JavaScript numbers in the ledger.
- Completeness of the import of Lightning payments, which stops a page at the first unknown one.
- Probing for routes, notifications, logging, contacts, GraphQL types, configuration, authentication and migrations.

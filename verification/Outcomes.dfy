/** The source returns either a value or an error object; both are values here. */
module Outcomes {

  datatype Option<+T> = None | Some(value: T)

  datatype Error =
    | InvalidBtcPaymentAmount
    | InvalidUsdPaymentAmount
    | BtcAmountTooLarge
    | UsdAmountTooLarge
    | InvalidZeroAmountPriceRatioInput
    | ZeroAmountForUsdRecipient
    | SelfPayment
    | InvalidBuilderState
    | SenderWalletImpossible
    | ConversionImpossible
    | InvalidFlowState
    | IntraLedgerHashPresentInLnFlow
    | LnHashPresentInIntraLedgerFlow
    | FeeDifference
    | NonLnPaymentTransaction
    | MissingPropsInTransaction
    | InvalidLedgerTransactionState
    | InvalidCurrencyForWallet
    | InsufficientBalance
    | ServiceError(code: nat)

  datatype Outcome<+T> = Ok(value: T) | Err(error: Error)
}

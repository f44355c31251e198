/** Payment intents as the provider reports them (backend/src/lib/paymentProvider.ts). */
module IntentState {

  type IntentId = nat

  datatype IntentStatus = Unconfirmed | NeedsMethod | NeedsAction | InProcess | Succeeded | Canceled

  datatype Outcome = PaymentSucceeded | PaymentPending | PaymentFailed

  /** What `getIntent` reports of an intent the provider knows. */
  function OutcomeOf(status: IntentStatus): Outcome {
    match status
    case Succeeded => PaymentSucceeded
    case NeedsAction => PaymentPending
    case InProcess => PaymentPending
    case _ => PaymentFailed
  }

  /** A payment that already went through is never cancelled. */
  function AfterCancel(status: IntentStatus): IntentStatus { if status == Succeeded then Succeeded else Canceled }
}

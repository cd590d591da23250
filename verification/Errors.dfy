/** What an exception class of errors.py promises about one submission to the native queue. */
module Errors {

  /** Where the message of one `deliver` call has got to. */
  datatype Fate =
    | Unsent    // not passed to the transport (yet)
    | OnWire    // passed to the transport, the server may still take it
    | Queued    // in the native queue or its history
    | Refused   // the server turned it down, or it was lost for good
  {
    predicate MayBeAccepted() {
      OnWire? || Queued?
    }
  }

  /** How one `deliver` call ends for its caller. */
  datatype Outcome =
    | Delivered      // a receipt
    | Unavailable    // raised before submission
    | Retryable      // known not accepted
    | Permanent      // rejected
    | Uncertain      // may have been accepted
    | Unexpected     // any other exception

  /** The error contract: the three failures that let the caller forget the message may be
      raised only when it can no longer be accepted, and a receipt only once it is. */
  predicate Honest(outcome: Outcome, fate: Fate) {
    match outcome
    case Delivered => fate.Queued?
    case Unavailable => fate.Unsent?
    case Retryable => !fate.MayBeAccepted()
    case Permanent => !fate.MayBeAccepted()
    case Uncertain => true
    case Unexpected => true
  }
}

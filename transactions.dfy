/** The transaction record of js/Models/Transaction.js: an immutable log entry.
    The record's `date` (taken from the clock) is not part of the model. */
module Transactions {

  datatype Kind = Deposit | Withdraw | Transfer

  datatype Status = Success | Failed

  /** The constructor stores its four arguments as given and nothing ever changes
      them afterwards, so the record is a value. */
  datatype Transaction = Transaction(kind: Kind, amount: real, status: Status, details: string)
}

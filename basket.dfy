/** The records handed to `basket.queue`, one constructor per shape the
    handlers build. Optional keys that a shape never carries are `None`. */
module Basket {
  import opened Wrappers

  datatype Record =
      /** A donation: one-time charges and recurring charges that succeeded. */
    | Donation(
        eventType: string,
        lastName: Option<string>,
        email: Option<string>,
        donationAmount: real,
        currency: string,
        created: int,
        recurring: bool,
        frequency: Option<string>,
        service: string,
        transactionId: string,
        subscriptionId: Option<string>,
        project: string)
      /** A recurring charge that failed; `failureCode` is the charge's (possibly null) code. */
    | FailedCharge(
        eventType: string,
        lastName: Option<string>,
        email: Option<string>,
        donationAmount: real,
        currency: string,
        created: int,
        recurring: bool,
        frequency: Option<string>,
        service: string,
        transactionId: string,
        subscriptionId: Option<string>,
        project: string,
        failureCode: Option<string>)
      /** A refund or a dispute: exactly `event_type`, `transaction_id`, `reason` and `status`. */
    | StatusChange(eventType: string, transactionId: string, reason: string, status: string)
}

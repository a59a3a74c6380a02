# Stripe donation and webhook handlers

A Dafny model of the card-payment core of the donation server: the `stripe`
and `stripeMonthlyUpgrade` routes, the `stripe-charge-refunded`,
`stripe-dispute`, `stripe-charge-succeeded` and `stripe-charge-failed` webhook
routes, the request wrappers they send to the provider, and the campaign
attribution rules.

The provider, the cookie seal and unseal, `amountModifier.stripe` and
`basket.zeroDecimalCurrencyFix` are not visible. They are fields of `Runtime.Env`:
functions from the request sent to the provider's answer (a `Result`). The same
holds for each webhook's signature check. A route is then a deterministic
sequence of steps. Each route is stated twice:

- a specification function (`…Route`) from the environment and the request to an
  `Outcome`: the response, the provider requests issued in order (`calls`), and
  the records handed to `basket.queue` in order (`queued`). Its `ensures` state the
  gating order, what is queued and when, and which values reach the provider and the queue;
- a method that runs the same steps on a `Runtime.World` object. `World.Send`
  issues one provider request and `World.Queue` appends one record. The method is
  proved to leave exactly the function's calls and records behind and to return its response.

Modules follow the source: `Stripe` is server/routes/stripe.js; `Donations` and
`Webhooks` are the handlers of server/routes/index.js; `ChargeFailed` is
server/routes/webhooks/stripe-charge-failed.js. `Campaign` holds the tag,
project and description mappings, and `Js` the JavaScript built-ins the
handlers rely on (`indexOf` on strings and arrays, truthiness).

The model follows the code as written, including these defects:

- The dispute handler's "skip the close when lost" test compares the event
  object with a string, so it never holds. Every accepted dispute gets a close
  request, even a created dispute that is already lost (`Webhooks.LostDisputeIsStillClosed`).
- The handler destructures `signup` from the request body and, when it is
  truthy, calls it. A body field is never a function, so this throws after the
  charge or subscription exists and before anything is queued (`Http.Uncaught`).
  The newsletter call never happens.
- In the upgrade route, a cookie that unseals without a customer id reaches
  `reply`, which is undefined there. This is a ReferenceError, not a 400
  (`Donations.CookieWithoutCustomerThrows`).
- Reading the first element of an empty `refunds.data` or `sources.data` list
  throws. It is modelled as `Http.Uncaught`, with nothing queued.

## Model

| member | source | states |
|---|---|---|
| `Runtime.World.Send` | server/routes/stripe.js:11-51 | one provider request is appended to the call log, the queue is unchanged, and the answer is the provider's answer to that request |
| `Runtime.World.Queue` | server/routes/index.js:187-198 | `basket.queue` appends exactly the record to the queue and issues no provider call |
| `Js.IndexOf` | server/routes/index.js:92-96 | `indexOf` is non-negative exactly when the pattern occurs, and then it is the first occurrence |
| `Js.IndexOfFrom` | server/routes/index.js:92-96 | the search from a position finds the first occurrence at or after it, or -1 when there is none |
| `Js.ArrayIndexOf` | server/routes/index.js:693 | `indexOf(x) === -1` exactly when `x` is not in the array; otherwise the first position of `x` |
| `Stripe.CustomerRequest` | server/routes/stripe.js:11-14 | the customer is created from email and metadata, with the card token sent under the name `source` |
| `Stripe.SingleRequest` | server/routes/stripe.js:15-18 | the charge request carries exactly amount, currency, customer, description and metadata from its input |
| `Stripe.RecurringRequest` | server/routes/stripe.js:19-30 | plan = currency code; quantity and metadata passed through; subscribes `customer.id`; `trial_period_days` present iff `trialPeriodDays` is truthy |
| `Stripe.RetrieveChargeRequest` | server/routes/stripe.js:42-46 | a charge lookup always expands the invoice |
| `Stripe.RetrieveDisputeRequest` | server/routes/stripe.js:37-41 | a dispute lookup always expands the charge |
| `Stripe.ConstructEvent` | server/routes/stripe.js:53-63 | never fails: a failed verification gives no event (`undefined`), a successful one gives the event |
| `Campaign.Tagged` | server/routes/index.js:92-96 | "Thunderbird" in the description sets only `thunderbird`; "glassroomnyc" sets `glassroomnyc` only without "Thunderbird"; never both |
| `Campaign.Project` | server/routes/index.js:197 | the project is "thunderbird" iff that flag is set, else "glassroomnyc" iff that flag is set, else "mozillafoundation" |
| `Campaign.ChargeDescription` | server/routes/index.js:778-784 | the description written on a recurring charge follows the priority thunderbird > glassroomnyc > "Mozilla Foundation Monthly Donation" |
| `Campaign.DescriptionAgreesWithProject` | server/routes/index.js:778-799 | the charge description and the queued project name the same campaign |
| `Campaign.ProjectOfDescription` | server/routes/index.js:92-197 | the project of a one-time donation is decided by the description text alone |
| `Donations.StripeRoute` | server/routes/index.js:71-306 | customer first; a customer or charge failure is the 400 "Stripe charge failed", a subscription failure the 400 "Stripe subscription failed", each with nothing queued and no further call; a created customer always leads to the charge request, or for exactly "monthly" to the subscription request (quantity = modified amount, no trial); a successful charge without `signup` answers 200 with the charge's amount, currency and id and queues exactly its donation record (transaction id = charge id, project of the description); a successful subscription answers 200 with the subscription's plan, quantity and id and queues nothing; a truthy `signup` is the TypeError, with nothing queued, exactly once the charge or subscription succeeded; the cookie holds the customer id and is dropped only when sealing fails |
| `Donations.OneTimeDonation` | server/routes/index.js:187-198 | the one-time record: type "donation", not recurring, no frequency or subscription, service "stripe", the charge's id, currency, creation time, card name, email and converted amount, and the project of the request's metadata |
| `Donations.SealFailureKeepsBody` | server/routes/index.js:200-228 | a seal failure leaves the calls, the queue and the 200 body unchanged and only omits the cookie |
| `Donations.StripeHandler` | server/routes/index.js:71-306 | the step-by-step handler leaves exactly `StripeRoute`'s calls and records and returns its response |
| `Donations.MonthlyUpgradeRoute` | server/routes/index.js:307-416 | missing cookie: 400 before any call; unseal failure: 500; the provider is reached only with a customer id from the cookie; a failed customer lookup is a 500; a found customer always gets the subscription request, with a 30-day trial and quantity = modified amount; a created subscription answers 200 with its plan, quantity and id and clears the cookie, and only then; nothing is queued |
| `Donations.CookieWithoutCustomerThrows` | server/routes/index.js:345-354 | a cookie without a customer id ends in the ReferenceError on `reply`, with no call |
| `Donations.StripeMonthlyUpgrade` | server/routes/index.js:307-416 | the step-by-step handler matches `MonthlyUpgradeRoute` and queues nothing |
| `Donations.PaypalRedirectPlan` | server/routes/index.js:474-487 | locale prefix is "/" + locale when it is truthy, else empty; the thunderbird thank-you page iff the app is "thunderbird"; frequency defaults to "single"; recurring iff frequency is "monthly" |
| `Webhooks.RefundReason` | server/routes/index.js:658-664 | a null refund reason becomes "requested_by_customer"; any other reason is kept |
| `Webhooks.ChargeRefundedRoute` | server/routes/index.js:639-674 | forbidden iff the signature fails; a wrong type is acknowledged; nothing is ever fetched; a verified charge.refunded event with a refund always queues exactly one record carrying the type, charge id, first refund's reason (null as "requested_by_customer") and status, and answers "charge event processed"; a charge without refunds throws with nothing queued |
| `Webhooks.StripeChargeRefunded` | server/routes/index.js:639-674 | the step-by-step handler matches `ChargeRefundedRoute` and issues no provider call |
| `Webhooks.DisputeRoute` | server/routes/index.js:675-735 | forbidden iff the signature fails; exactly the three dispute types issue one close; a close error other than "already closed" is a 500 with nothing queued; a close that succeeds or finds the dispute already closed always queues the dispute record and answers "dispute processed" |
| `Webhooks.LostDisputeIsStillClosed` | server/routes/index.js:700-707 | a created dispute with status "lost" is still sent a close request |
| `Webhooks.StripeDispute` | server/routes/index.js:675-735 | the step-by-step handler matches `DisputeRoute` |
| `Webhooks.RecurringDonation` | server/routes/index.js:787-800 | the recurring record: type "donation", recurring, frequency "monthly", service "stripe", the charge's id, currency, creation time and converted amount, the subscription's id, the first card's name, the customer's email and the subscription's project |
| `Webhooks.DescriptionUpdate` | server/routes/index.js:774-784 | the update targets the charge, passes the subscription's metadata on, and names the campaign with the priority thunderbird > glassroomnyc > the foundation |
| `Webhooks.ChargeSucceededRoute` | server/routes/index.js:736-813 | nothing is fetched before the signature and type gates; the charge is fetched with its invoice; no invoice or subscription: acknowledged, nothing queued; lookup errors are 500s with nothing queued; a linked charge always leads to the subscription lookup; a found subscription always queues the recurring donation and then sends the description update, so an update failure is a 500 that keeps the record |
| `Webhooks.StripeChargeSucceeded` | server/routes/index.js:736-813 | the step-by-step handler matches `ChargeSucceededRoute` |
| `ChargeFailed.FailureRecord` | server/routes/webhooks/stripe-charge-failed.js:71-102 | the record has type "charge.failed", recurring, frequency "monthly", service "stripe", the charge and subscription ids, the charge's failure code, currency, creation time and converted amount, the name on the subscription customer's first card, that customer's email, and the subscription's project |
| `ChargeFailed.ChargeFailedRoute` | server/routes/webhooks/stripe-charge-failed.js:21-105 | forbidden iff the signature fails; wrong type: `incorrectEvent`; no invoice on the event: `notRecurringCharge` without a fetch; lookup errors: 500 with the error text, nothing queued; unlinked charge: `notPartOfSubscription`; a linked charge always leads to the subscription lookup, and a found subscription always queues exactly the failure record and answers `successMessage` |
| `ChargeFailed.StripeChargeFailed` | server/routes/webhooks/stripe-charge-failed.js:21-105 | the step-by-step handler matches `ChargeFailedRoute` |
| `ChargeFailed.ChargeFailedAsWritten` | server/routes/webhooks/stripe-charge-failed.js:44-55 | as written, every event that passes the gates issues the charge lookup and then throws; nothing is ever queued |
| `ChargeFailed.AsWrittenLosesEveryReport` | server/routes/webhooks/stripe-charge-failed.js:46-104 | every record the intended handler would queue is lost as written |
| `ChargeFailed.DeclinedRenewalIsLostAsWritten` | server/routes/webhooks/stripe-charge-failed.js:46-104 | a concrete declined renewal: one record intended, none as written |

## Findings

| source | as written | input that shows it | evidently intended | confidence | as-written member | corrected member |
|---|---|---|---|---|---|---|
| server/routes/webhooks/stripe-charge-failed.js:47 | `retrieveCharge` (server/routes/stripe.js:42-46) takes a callback and returns nothing; it is called without one, so `charge` becomes `undefined` and line 53 throws outside any `try` | a verified `charge.failed` event whose charge has an invoice (`ChargeFailed.WitnessEnv`) | await the charge and subscription lookups and report their errors as 500s, as lines 46-65 are written to do | high; not executed | `ChargeFailed.ChargeFailedAsWritten` | `ChargeFailed.ChargeFailedRoute` |

## Left out

- Logging, request ids and timing (`request.log`, `Date.now()` differences) have no effect on the outcome.
- `amountModifier.stripe` and `basket.zeroDecimalCurrencyFix` are not part of this model. They are uninterpreted functions of `Env`, and no minor-unit round trip is claimed.
- The iron seal and unseal are uninterpreted functions that may fail. No round trip and no cryptography are modelled.
- The provider SDK and the webhook signature check are oracles. The cookie seal is not recorded as a provider call.
- The newsletter side call (server/routes/index.js:160-179, 269-288) never runs, because `signup` is not a function. Only the resulting throw is modelled.
- The `paypal` and `paypal-redirect` payment steps are SDK plumbing that uses undefined `data` and `reply`. Only the redirect's locale, location and frequency derivation is modelled.
- The `mailchimp` route, server/routes/signup.js, server/routes/mailchimp.js, server/services.js and the UI component are HTTP plumbing or configuration.
- Promise and callback chaining is modelled as straight-line steps. Provider calls and queue appends are kept in two separate logs. Their relative order shows only where it changes an outcome: a charge update that fails after the record was queued.
- Request fields are always present strings. The cases where a missing `description` or payload makes the JavaScript throw are not modelled.
- A webhook event's data object has the type its endpoint expects. Every handler rejects other event types before it reads the object.
- Boom's `data` argument of a 500 (the provider error at server/routes/index.js:361, 731, 756 and 771) is not recorded, because it does not reach the client.
- `Stripe.ErrorText`: `${err}` is modelled as name, ": " and message. The empty-name and empty-message cases of `Error.prototype.toString` are not modelled.
- `Webhooks.ChargeRefundedRoute`, `Webhooks.DisputeRoute` and `Webhooks.ChargeSucceededRoute` take `reply(...)` (server/routes/index.js:639-813) as the callback that sends its argument. The other handlers in the same file use the newer toolkit style (`h.response`), where the second argument cannot be called. Under that framework every `reply(...)` here would throw and answer a 500. The provider calls and queued records would be the same, since each `reply` comes after them.
- `Donations.StripeRoute`: the `signup` field is modelled by its truthiness. The response echoes that boolean rather than the raw value the donor sent.
- `Stripe.Metadata` flags are the truthiness of the provider's metadata values. The values themselves are strings.

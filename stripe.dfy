/** The card provider as the handlers see it: the objects it returns, the
    requests the wrappers in server/routes/stripe.js issue, and the provider's
    answers, which are given as oracle functions of the request sent. */
module Stripe {
  import opened Wrappers
  import Js

  /** Campaign attribution and donor details attached to customers, charges and
      subscriptions; `None` is an absent key, a flag is the key's truthiness. */
  datatype Metadata = Metadata(email: Option<string>, locale: Option<string>, thunderbird: bool, glassroomnyc: bool)

  datatype Card = Card(name: Option<string>)

  datatype Customer = Customer(id: string, email: Option<string>, sources: seq<Card>)

  /** An invoice expanded on a charge; `subscription` is the subscription id. */
  datatype Invoice = Invoice(customer: string, subscription: Option<string>)

  datatype Refund = Refund(reason: Option<string>, status: string)

  datatype Charge = Charge(
    id: string,
    amount: int,
    currency: string,
    created: int,
    metadata: Metadata,
    source: Card,
    invoice: Option<Invoice>,
    refunds: seq<Refund>,
    failureCode: Option<string>)

  /** A subscription as returned on creation (customer not expanded). */
  datatype Subscription = Subscription(id: string, planCurrency: string, quantity: int)

  /** A subscription retrieved with its customer expanded. */
  datatype ExpandedSubscription = ExpandedSubscription(id: string, metadata: Metadata, customer: Customer)

  datatype Dispute = Dispute(id: string, charge: string, reason: string, status: string)

  /** A verified webhook event; `dataObject` is `event.data.object`. */
  datatype Event<T> = Event(eventType: string, dataObject: T)

  /** An error thrown by the provider's SDK. */
  datatype StripeError = StripeError(name: string, message: string, code: Option<string>, rawType: Option<string>)

  /** `${err}`: the string an SDK error converts to. */
  function ErrorText(e: StripeError): string {
    e.name + ": " + e.message
  }

  // ---- Requests sent to the provider ----

  datatype CustomerParams = CustomerParams(email: string, metadata: Metadata, source: string)

  datatype ChargeParams = ChargeParams(amount: int, currency: string, customer: string, description: string, metadata: Metadata)

  /** `trialPeriodDays` is `None` when the request carries no `trial_period_days` key. */
  datatype SubscriptionParams = SubscriptionParams(plan: string, quantity: int, metadata: Metadata, trialPeriodDays: Option<string>)

  datatype ChargeUpdate = ChargeUpdate(metadata: Metadata, description: string)

  /** One request issued to the provider. */
  datatype Call =
    | CreateCustomer(customer: CustomerParams)
    | CreateCharge(charge: ChargeParams)
    | CreateSubscription(customerId: string, subscription: SubscriptionParams)
    | RetrieveCustomer(customerId: string)
    | RetrieveCharge(chargeId: string, expand: seq<string>)
    | RetrieveSubscription(customerId: string, subscriptionId: string, expand: seq<string>)
    | RetrieveDispute(disputeId: string, expand: seq<string>)
    | CloseDispute(disputeId: string)
    | UpdateCharge(chargeId: string, update: ChargeUpdate)

  /** The provider's answer to each kind of request, and the SDK's webhook
      signature check (which throws on a bad signature). */
  datatype Gateway = Gateway(
    createCustomer: Call -> Result<Customer, StripeError>,
    createCharge: Call -> Result<Charge, StripeError>,
    createSubscription: Call -> Result<Subscription, StripeError>,
    retrieveCustomer: Call -> Result<Customer, StripeError>,
    retrieveCharge: Call -> Result<Charge, StripeError>,
    retrieveSubscription: Call -> Result<ExpandedSubscription, StripeError>,
    closeDispute: Call -> Result<Dispute, StripeError>,
    updateCharge: Call -> Result<Charge, StripeError>,
    verifyChargeEvent: (string, Option<string>, string) -> Result<Event<Charge>, StripeError>,
    verifyDisputeEvent: (string, Option<string>, string) -> Result<Event<Dispute>, StripeError>)

  // ---- What the handlers hand to the wrappers ----

  datatype CustomerInput = CustomerInput(metadata: Metadata, email: string, stripeToken: string)

  datatype SingleInput = SingleInput(amount: int, currency: string, metadata: Metadata, description: string, customer: string)

  datatype RecurringInput = RecurringInput(currency: string, metadata: Metadata, customer: Customer, quantity: int, trialPeriodDays: Option<string>)

  // ---- The wrappers ----

  /** `customer`: creates a customer from the donor's email and metadata; the
      card token is sent under the name `source`. */
  function CustomerRequest(t: CustomerInput): (c: Call)
    ensures c.CreateCustomer?
    ensures c.customer.source == t.stripeToken
    ensures c.customer.email == t.email && c.customer.metadata == t.metadata
  {
    CreateCustomer(CustomerParams(t.email, t.metadata, t.stripeToken))
  }

  /** `single`: a one-time charge of the given amount, for the given customer id. */
  function SingleRequest(t: SingleInput): (c: Call)
    ensures c.CreateCharge?
    ensures c.charge.amount == t.amount && c.charge.currency == t.currency
    ensures c.charge.customer == t.customer && c.charge.description == t.description
    ensures c.charge.metadata == t.metadata
  {
    CreateCharge(ChargeParams(t.amount, t.currency, t.customer, t.description, t.metadata))
  }

  /** `recurring`: subscribes the customer to the plan named by the currency code,
      with the amount carried as the quantity; a trial is requested exactly when
      `trialPeriodDays` is truthy, and then for that many days. */
  function RecurringRequest(t: RecurringInput): (c: Call)
    ensures c.CreateSubscription?
    ensures c.customerId == t.customer.id
    ensures c.subscription.plan == t.currency
    ensures c.subscription.quantity == t.quantity && c.subscription.metadata == t.metadata
    ensures c.subscription.trialPeriodDays.Some? <==> Js.Truthy(t.trialPeriodDays)
    ensures c.subscription.trialPeriodDays.Some? ==> c.subscription.trialPeriodDays == t.trialPeriodDays
  {
    var trial := if Js.Truthy(t.trialPeriodDays) then t.trialPeriodDays else None;
    CreateSubscription(t.customer.id, SubscriptionParams(t.currency, t.quantity, t.metadata, trial))
  }

  /** `retrieveCharge`: always asks for the invoice to be expanded. */
  function RetrieveChargeRequest(chargeId: string): (c: Call)
    ensures c.RetrieveCharge? && c.chargeId == chargeId && c.expand == ["invoice"]
  {
    RetrieveCharge(chargeId, ["invoice"])
  }

  /** `retrieveDispute`: always asks for the charge to be expanded. */
  function RetrieveDisputeRequest(disputeId: string): (c: Call)
    ensures c.RetrieveDispute? && c.disputeId == disputeId && c.expand == ["charge"]
  {
    RetrieveDispute(disputeId, ["charge"])
  }

  /** `constructEvent`: never throws; a failed signature check becomes `undefined`. */
  function ConstructEvent<T>(verified: Result<Event<T>, StripeError>): (e: Option<Event<T>>)
    ensures e.None? <==> verified.Failure?
    ensures e.Some? ==> e.value == verified.value
  {
    match verified
    case Success(event) => Some(event)
    case Failure(_) => None
  }

  /** The charge belongs to a subscription: it has an invoice, and the invoice a subscription. */
  predicate Linked(charge: Charge) {
    charge.invoice.Some? && Js.Truthy(charge.invoice.value.subscription)
  }

  /** The subscription lookup for a linked charge, with the customer expanded. */
  function SubscriptionLookup(charge: Charge): Call
    requires Linked(charge)
  {
    RetrieveSubscription(charge.invoice.value.customer, charge.invoice.value.subscription.value, ["customer"])
  }
}

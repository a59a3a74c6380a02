/** The donor-facing card routes of server/routes/index.js: `stripe` (one-time
    charge or new subscription) and `stripeMonthlyUpgrade` (a subscription for
    the customer named by the session cookie), plus the pure part of
    `paypal-redirect`. Each route is a specification function from the
    collaborators and the request to its whole effect, and a method that
    performs the same steps on a `World` and is proved to match it. */
module Donations {
  import opened Wrappers
  import Js
  import Stripe
  import Basket
  import Http
  import Campaign
  import opened Runtime

  const ChargeFailedMessage := "Stripe charge failed"
  const SubscriptionFailedMessage := "Stripe subscription failed"
  const UpgradeErrorMessage := "An error occurred while creating this monthly donation"
  /** `signup` is the payload field destructured from the request body; calling it throws. */
  const SignupNotAFunction := "TypeError: signup is not a function"
  /** `reply` is not defined in the async upgrade handler. */
  const ReplyNotDefined := "ReferenceError: reply is not defined"

  /** The body of a `stripe` request. `signup` is the truthiness of the field. */
  datatype DonationRequest = DonationRequest(
    amount: string,
    currency: string,
    email: string,
    locale: string,
    description: string,
    stripeToken: string,
    frequency: Option<string>,
    signup: bool,
    country: string)

  /** The body of a `stripeMonthlyUpgrade` request and its `session` cookie. */
  datatype UpgradeRequest = UpgradeRequest(
    amount: string,
    currency: string,
    locale: string,
    description: string,
    session: Option<string>)

  /** Only the exact string "monthly" selects the subscription path. */
  predicate IsMonthly(req: DonationRequest) {
    req.frequency == Some("monthly")
  }

  function ModifiedAmount(env: Env, req: DonationRequest): int {
    env.amountModifier(req.amount, req.currency)
  }

  function DonationMetadata(req: DonationRequest): Stripe.Metadata {
    Campaign.Tagged(Some(req.email), Some(req.locale), req.description)
  }

  function DonationCustomer(req: DonationRequest): Stripe.Call {
    Stripe.CustomerRequest(Stripe.CustomerInput(DonationMetadata(req), req.email, req.stripeToken))
  }

  function DonationCharge(env: Env, req: DonationRequest, customer: Stripe.Customer): Stripe.Call {
    Stripe.SingleRequest(Stripe.SingleInput(ModifiedAmount(env, req), req.currency, DonationMetadata(req), req.description, customer.id))
  }

  function DonationSubscription(env: Env, req: DonationRequest, customer: Stripe.Customer): Stripe.Call {
    Stripe.RecurringRequest(Stripe.RecurringInput(req.currency, DonationMetadata(req), customer, ModifiedAmount(env, req), None))
  }

  function Detail(e: Stripe.StripeError): Http.ErrorDetail {
    Http.ErrorDetail(e.code, e.rawType)
  }

  /** The 400 returned when creating the customer or the charge throws. */
  function ChargeFailed(e: Stripe.StripeError): Http.Response {
    Http.BadRequest(ChargeFailedMessage, Some(Detail(e)), None)
  }

  /** The 400 returned when creating a subscription throws. */
  function SubscriptionFailed(e: Stripe.StripeError): Http.Response {
    Http.BadRequest(SubscriptionFailedMessage, None, Some(Detail(e)))
  }

  /** The record queued for a one-time charge. */
  function OneTimeDonation(env: Env, charge: Stripe.Charge, metadata: Stripe.Metadata): (r: Basket.Record)
    ensures r.Donation? && r.eventType == "donation"
    ensures !r.recurring && r.frequency.None? && r.subscriptionId.None? && r.service == "stripe"
    ensures r.transactionId == charge.id && r.currency == charge.currency && r.created == charge.created
    ensures r.lastName == charge.source.name && r.email == charge.metadata.email
    ensures r.donationAmount == env.zeroDecimalCurrencyFix(charge.amount, charge.currency)
    ensures r.project == Campaign.Project(metadata)
  {
    Basket.Donation(
      "donation", charge.source.name, charge.metadata.email,
      env.zeroDecimalCurrencyFix(charge.amount, charge.currency), charge.currency, charge.created,
      false, None, "stripe", charge.id, None, Campaign.Project(metadata))
  }

  /** The cookie carried back: set when sealing succeeded, otherwise not touched. */
  function SessionFor(sealed: Result<string, IronError>): Http.Session {
    match sealed
    case Success(token) => Http.SetSession(token)
    case Failure(_) => Http.Untouched
  }

  /** The `stripe` route. */
  function StripeRoute(env: Env, req: DonationRequest): (o: Outcome)
    // the customer is always created first, and its failure stops everything
    ensures |o.calls| >= 1 && o.calls[0] == DonationCustomer(req)
    ensures env.gateway.createCustomer(DonationCustomer(req)).Failure? ==>
      o.calls == [DonationCustomer(req)] && o.queued == [] &&
      o.response == ChargeFailed(env.gateway.createCustomer(DonationCustomer(req)).error)
    // the path is chosen by the frequency, and only the one-time path charges
    ensures !IsMonthly(req) ==> forall c | c in o.calls :: !c.CreateSubscription?
    ensures IsMonthly(req) ==> forall c | c in o.calls :: !c.CreateCharge?
    ensures |o.calls| <= 2
    // a failed charge answers the same 400 as a failed customer, and queues nothing
    ensures |o.calls| == 2 && o.calls[1].CreateCharge? && env.gateway.createCharge(o.calls[1]).Failure? ==>
      o.queued == [] && o.response == ChargeFailed(env.gateway.createCharge(o.calls[1]).error)
    // exactly one donation is queued, and only for a successful one-time charge
    ensures |o.queued| <= 1
    ensures o.queued != [] <==> o.response.Ok? && o.response.body.OneTime?
    ensures o.response.Ok? ==> !req.signup && |o.calls| == 2
    ensures o.response.Ok? && o.response.body.OneTime? ==>
      && !IsMonthly(req)
      && o.calls[1].CreateCharge?
      && o.calls[1].charge.amount == ModifiedAmount(env, req)
      && o.calls[1].charge.customer == env.gateway.createCustomer(o.calls[0]).value.id
      && o.response.body.frequency == "one-time"
      && o.queued[0].Donation?
      && o.queued[0].eventType == "donation"
      && !o.queued[0].recurring
      && o.queued[0].service == "stripe"
      && o.queued[0].transactionId == o.response.body.id
      && o.queued[0].currency == o.response.body.currency
      && o.queued[0].frequency.None? && o.queued[0].subscriptionId.None?
      && o.queued[0].project == Campaign.Project(DonationMetadata(req))
    // the cookie carries the new customer id, and is dropped when sealing fails
    ensures o.response.Ok? && o.response.body.OneTime? ==>
      var sealed := env.seal(Cookie(Some(env.gateway.createCustomer(o.calls[0]).value.id)));
      (o.response.session.SetSession? <==> sealed.Success?) &&
      (sealed.Success? ==> o.response.session.token == sealed.value) &&
      (sealed.Failure? ==> o.response.session == Http.Untouched)
    // the monthly path subscribes for the modified amount, without trial, and queues nothing
    ensures o.response.Ok? && o.response.body.Monthly? ==>
      && IsMonthly(req)
      && o.calls[1].CreateSubscription?
      && o.calls[1].subscription.quantity == ModifiedAmount(env, req)
      && o.calls[1].subscription.plan == req.currency
      && o.calls[1].subscription.trialPeriodDays.None?
      && o.response.body.frequency == "monthly"
      && o.response.session == Http.Untouched
    ensures !(o.response.Ok? && o.response.body.Upgraded?)
    // a truthy signup field throws once the payment exists, before anything is queued
    ensures o.response.Uncaught? ==> req.signup && |o.calls| == 2 && o.queued == []
    ensures |o.calls| == 2 && req.signup &&
            (o.calls[1].CreateCharge? ==> env.gateway.createCharge(o.calls[1]).Success?) &&
            (o.calls[1].CreateSubscription? ==> env.gateway.createSubscription(o.calls[1]).Success?) ==>
      o.response == Http.Uncaught(SignupNotAFunction) && o.queued == []
    // a created customer always leads to the charge, or for "monthly" to the subscription
    ensures var customer := env.gateway.createCustomer(DonationCustomer(req));
      customer.Success? && !IsMonthly(req) ==> o.calls == [DonationCustomer(req), DonationCharge(env, req, customer.value)]
    ensures var customer := env.gateway.createCustomer(DonationCustomer(req));
      customer.Success? && IsMonthly(req) ==> o.calls == [DonationCustomer(req), DonationSubscription(env, req, customer.value)]
    ensures |o.calls| == 2 && o.calls[1].CreateSubscription? && env.gateway.createSubscription(o.calls[1]).Failure? ==>
      o.queued == [] && o.response == SubscriptionFailed(env.gateway.createSubscription(o.calls[1]).error)
    // a successful charge without signup answers 200 and queues exactly its donation
    ensures |o.calls| == 2 && o.calls[1].CreateCharge? && env.gateway.createCharge(o.calls[1]).Success? && !req.signup ==>
      var charge := env.gateway.createCharge(o.calls[1]).value;
      && o.response.Ok?
      && o.response.body == Http.OneTime("one-time", charge.amount, charge.currency, charge.id, false, req.country, req.email)
      && o.queued == [OneTimeDonation(env, charge, DonationMetadata(req))]
      && o.queued[0].transactionId == charge.id
    // a successful subscription without signup answers 200 with the subscription's plan, quantity and id
    ensures |o.calls| == 2 && o.calls[1].CreateSubscription? && env.gateway.createSubscription(o.calls[1]).Success? && !req.signup ==>
      var subscription := env.gateway.createSubscription(o.calls[1]).value;
      o.response == Http.Ok(Http.Monthly("monthly", subscription.planCurrency, subscription.quantity, subscription.id, false, req.country, req.email), Http.Untouched)
  {
    var createCustomer := DonationCustomer(req);
    match env.gateway.createCustomer(createCustomer)
    case Failure(err) => Outcome(ChargeFailed(err), [createCustomer], [])
    case Success(customer) =>
      if !IsMonthly(req) then
        var createCharge := DonationCharge(env, req, customer);
        match env.gateway.createCharge(createCharge)
        case Failure(err) => Outcome(ChargeFailed(err), [createCustomer, createCharge], [])
        case Success(charge) =>
          if req.signup then Outcome(Http.Uncaught(SignupNotAFunction), [createCustomer, createCharge], [])
          else
            var body := Http.OneTime("one-time", charge.amount, charge.currency, charge.id, req.signup, req.country, req.email);
            var session := SessionFor(env.seal(Cookie(Some(customer.id))));
            Outcome(Http.Ok(body, session), [createCustomer, createCharge], [OneTimeDonation(env, charge, DonationMetadata(req))])
      else
        var createSubscription := DonationSubscription(env, req, customer);
        match env.gateway.createSubscription(createSubscription)
        case Failure(err) => Outcome(SubscriptionFailed(err), [createCustomer, createSubscription], [])
        case Success(subscription) =>
          if req.signup then Outcome(Http.Uncaught(SignupNotAFunction), [createCustomer, createSubscription], [])
          else
            var body := Http.Monthly("monthly", subscription.planCurrency, subscription.quantity, subscription.id, req.signup, req.country, req.email);
            Outcome(Http.Ok(body, Http.Untouched), [createCustomer, createSubscription], [])
  }

  /** A seal failure changes nothing but the cookie: same calls, same queue, same body. */
  lemma SealFailureKeepsBody(env: Env, req: DonationRequest, seal: Cookie -> Result<string, IronError>)
    requires forall c :: seal(c).Failure?
    ensures var o, o' := StripeRoute(env, req), StripeRoute(env.(seal := seal), req);
      && o'.calls == o.calls && o'.queued == o.queued
      && (o.response.Ok? <==> o'.response.Ok?)
      && (o.response.Ok? ==> o'.response.body == o.response.body && o'.response.session == Http.Untouched)
      && (!o.response.Ok? ==> o'.response == o.response)
  {
  }

  method StripeHandler(w: World, req: DonationRequest) returns (response: Http.Response)
    modifies w
    ensures response == StripeRoute(w.env, req).response
    ensures w.calls == old(w.calls) + StripeRoute(w.env, req).calls
    ensures w.queued == old(w.queued) + StripeRoute(w.env, req).queued
  {
    var amount := w.env.amountModifier(req.amount, req.currency);
    var metadata := Campaign.Tagged(Some(req.email), Some(req.locale), req.description);
    var customer := w.Send(Stripe.CustomerRequest(Stripe.CustomerInput(metadata, req.email, req.stripeToken)), w.env.gateway.createCustomer);
    if customer.Failure? {
      return ChargeFailed(customer.error);
    }
    if req.frequency != Some("monthly") {
      var charge := w.Send(Stripe.SingleRequest(Stripe.SingleInput(amount, req.currency, metadata, req.description, customer.value.id)), w.env.gateway.createCharge);
      if charge.Failure? {
        return ChargeFailed(charge.error);
      }
      if req.signup {
        return Http.Uncaught(SignupNotAFunction);
      }
      w.Queue(OneTimeDonation(w.env, charge.value, metadata));
      var body := Http.OneTime("one-time", charge.value.amount, charge.value.currency, charge.value.id, req.signup, req.country, req.email);
      var sealed := w.env.seal(Cookie(Some(customer.value.id)));
      if sealed.Success? {
        return Http.Ok(body, Http.SetSession(sealed.value));
      }
      return Http.Ok(body, Http.Untouched);
    } else {
      var subscription := w.Send(Stripe.RecurringRequest(Stripe.RecurringInput(req.currency, metadata, customer.value, amount, None)), w.env.gateway.createSubscription);
      if subscription.Failure? {
        return SubscriptionFailed(subscription.error);
      }
      if req.signup {
        return Http.Uncaught(SignupNotAFunction);
      }
      return Http.Ok(Http.Monthly("monthly", subscription.value.planCurrency, subscription.value.quantity, subscription.value.id, req.signup, req.country, req.email), Http.Untouched);
    }
  }

  // ---- stripeMonthlyUpgrade ----

  function UpgradeMetadata(req: UpgradeRequest): Stripe.Metadata {
    Campaign.Tagged(None, Some(req.locale), req.description)
  }

  function UpgradeAmount(env: Env, req: UpgradeRequest): int {
    env.amountModifier(req.amount, req.currency)
  }

  /** The subscription requested for the customer found through the cookie: a 30-day trial. */
  function UpgradeSubscription(env: Env, req: UpgradeRequest, customer: Stripe.Customer): Stripe.Call {
    Stripe.RecurringRequest(Stripe.RecurringInput(req.currency, UpgradeMetadata(req), customer, UpgradeAmount(env, req), Some("30")))
  }

  /** The customer id the cookie yields, when it is present and unseals to a truthy id. */
  predicate CookieYieldsCustomer(env: Env, req: UpgradeRequest) {
    Js.Truthy(req.session) && env.unseal(req.session.value).Success? &&
    Js.Truthy(env.unseal(req.session.value).value.stripeCustomerId)
  }

  /** The `stripeMonthlyUpgrade` route. */
  function MonthlyUpgradeRoute(env: Env, req: UpgradeRequest): (o: Outcome)
    ensures o.queued == []
    // a missing cookie is rejected before any provider call
    ensures !Js.Truthy(req.session) ==> o == Outcome(Http.BadRequest(UpgradeErrorMessage, None, None), [], [])
    ensures Js.Truthy(req.session) && env.unseal(req.session.value).Failure? ==>
      o == Outcome(Http.BadImplementation(UpgradeErrorMessage), [], [])
    // the provider is reached only with a customer id from the cookie, and it is looked up first
    ensures o.calls != [] <==> CookieYieldsCustomer(env, req)
    ensures o.calls != [] ==> o.calls[0] == Stripe.RetrieveCustomer(env.unseal(req.session.value).value.stripeCustomerId.value)
    // any subscription has a 30-day trial and the modified amount as quantity
    ensures |o.calls| <= 2
    ensures |o.calls| == 2 ==>
      && o.calls[1].CreateSubscription?
      && env.gateway.retrieveCustomer(o.calls[0]).Success?
      && o.calls[1].customerId == env.gateway.retrieveCustomer(o.calls[0]).value.id
      && o.calls[1].subscription.trialPeriodDays == Some("30")
      && o.calls[1].subscription.quantity == UpgradeAmount(env, req)
      && o.calls[1].subscription.plan == req.currency
    // the cookie is cleared exactly when the subscription was created
    ensures o.response.Ok? <==> |o.calls| == 2 && env.gateway.createSubscription(o.calls[1]).Success?
    ensures o.response.Ok? ==> o.response.session == Http.Cleared && o.response.body.Upgraded? && o.response.body.frequency == "monthly"
    ensures |o.calls| == 2 && env.gateway.createSubscription(o.calls[1]).Failure? ==>
      o.response == SubscriptionFailed(env.gateway.createSubscription(o.calls[1]).error)
    // a failed customer lookup is a 500; a found customer always gets the subscription request
    ensures o.calls != [] && env.gateway.retrieveCustomer(o.calls[0]).Failure? ==>
      o == Outcome(Http.BadImplementation(UpgradeErrorMessage), [o.calls[0]], [])
    ensures o.calls != [] && env.gateway.retrieveCustomer(o.calls[0]).Success? ==>
      o.calls == [o.calls[0], UpgradeSubscription(env, req, env.gateway.retrieveCustomer(o.calls[0]).value)]
    ensures |o.calls| == 2 && env.gateway.createSubscription(o.calls[1]).Success? ==>
      var subscription := env.gateway.createSubscription(o.calls[1]).value;
      o.response == Http.Ok(Http.Upgraded("monthly", subscription.planCurrency, subscription.quantity, subscription.id), Http.Cleared)
  {
    if !Js.Truthy(req.session) then Outcome(Http.BadRequest(UpgradeErrorMessage, None, None), [], [])
    else
      match env.unseal(req.session.value)
      case Failure(_) => Outcome(Http.BadImplementation(UpgradeErrorMessage), [], [])
      case Success(cookie) =>
        if !Js.Truthy(cookie.stripeCustomerId) then Outcome(Http.Uncaught(ReplyNotDefined), [], [])
        else
          var lookup := Stripe.RetrieveCustomer(cookie.stripeCustomerId.value);
          match env.gateway.retrieveCustomer(lookup)
          case Failure(_) => Outcome(Http.BadImplementation(UpgradeErrorMessage), [lookup], [])
          case Success(customer) =>
            var subscribe := UpgradeSubscription(env, req, customer);
            match env.gateway.createSubscription(subscribe)
            case Failure(err) => Outcome(SubscriptionFailed(err), [lookup, subscribe], [])
            case Success(subscription) =>
              var body := Http.Upgraded("monthly", subscription.planCurrency, subscription.quantity, subscription.id);
              Outcome(Http.Ok(body, Http.Cleared), [lookup, subscribe], [])
  }

  /** A cookie without a customer id reaches the undefined `reply` and throws. */
  lemma CookieWithoutCustomerThrows(env: Env, req: UpgradeRequest)
    requires Js.Truthy(req.session) && env.unseal(req.session.value).Success?
    requires !Js.Truthy(env.unseal(req.session.value).value.stripeCustomerId)
    ensures MonthlyUpgradeRoute(env, req) == Outcome(Http.Uncaught(ReplyNotDefined), [], [])
  {
  }

  method StripeMonthlyUpgrade(w: World, req: UpgradeRequest) returns (response: Http.Response)
    modifies w
    ensures response == MonthlyUpgradeRoute(w.env, req).response
    ensures w.calls == old(w.calls) + MonthlyUpgradeRoute(w.env, req).calls
    ensures w.queued == old(w.queued)
  {
    var amount := w.env.amountModifier(req.amount, req.currency);
    var metadata := Campaign.Tagged(None, Some(req.locale), req.description);
    if !Js.Truthy(req.session) {
      return Http.BadRequest(UpgradeErrorMessage, None, None);
    }
    var cookie := w.env.unseal(req.session.value);
    if cookie.Failure? {
      return Http.BadImplementation(UpgradeErrorMessage);
    }
    var customerId := cookie.value.stripeCustomerId;
    if !Js.Truthy(customerId) {
      return Http.Uncaught(ReplyNotDefined);
    }
    var customer := w.Send(Stripe.RetrieveCustomer(customerId.value), w.env.gateway.retrieveCustomer);
    if customer.Failure? {
      return Http.BadImplementation(UpgradeErrorMessage);
    }
    var subscription := w.Send(Stripe.RecurringRequest(Stripe.RecurringInput(req.currency, metadata, customer.value, amount, Some("30"))), w.env.gateway.createSubscription);
    if subscription.Failure? {
      return SubscriptionFailed(subscription.error);
    }
    return Http.Ok(Http.Upgraded("monthly", subscription.value.planCurrency, subscription.value.quantity, subscription.value.id), Http.Cleared);
  }

  // ---- paypal-redirect: where the donor is sent back to ----

  /** The route parameters of `paypal-redirect`. */
  datatype RedirectParams = RedirectParams(locale: Option<string>, appName: Option<string>, frequency: Option<string>, accountType: Option<string>)

  /** The locale prefix, thank-you location and checkout options the redirect is built from. */
  datatype RedirectPlan = RedirectPlan(localePrefix: string, location: string, frequency: string, recurring: bool, accountType: Option<string>)

  function PaypalRedirectPlan(p: RedirectParams): (plan: RedirectPlan)
    ensures plan.localePrefix == (if Js.Truthy(p.locale) then "/" + p.locale.value else "")
    ensures plan.location == "thank-you" || plan.location == "thunderbird/thank-you"
    ensures plan.location == "thunderbird/thank-you" <==> p.appName == Some("thunderbird")
    ensures plan.frequency == (if Js.Truthy(p.frequency) then p.frequency.value else "single")
    ensures plan.recurring <==> plan.frequency == "monthly"
    ensures plan.recurring <==> p.frequency == Some("monthly")
    ensures plan.accountType == p.accountType
  {
    var locale := if Js.Truthy(p.locale) then p.locale.value else "";
    var localePrefix := if locale != "" then "/" + locale else locale;
    var location := if p.appName == Some("thunderbird") then "thunderbird/" + "thank-you" else "thank-you";
    var frequency := if Js.Truthy(p.frequency) then p.frequency.value else "single";
    RedirectPlan(localePrefix, location, frequency, frequency == "monthly", p.accountType)
  }
}

/** server/routes/webhooks/stripe-charge-failed.js: reports a failed recurring
    charge to the CRM so that it can record a lost donation at once.
    `ChargeFailedRoute` treats the two lookups as provider results that are
    awaited; `ChargeFailedAsWritten` follows the file literally, where the
    callback-style wrappers are called without a callback and return nothing. */
module ChargeFailed {
  import opened Wrappers
  import Js
  import Stripe
  import Basket
  import Http
  import Campaign
  import opened Runtime

  // values that are the same for every delivery
  const FailedType := "charge.failed"
  const Frequency := "monthly"
  const Recurring := true
  const Service := "stripe"

  const IncorrectEvent := "This hook only processes charge failed events"
  const ExpandChargeError := "An error occurred while expanding the charge"
  const RetrieveSubscriptionError := "An error occurred while fetching the subscription"
  const NotRecurringCharge := "This hook only processes recurring charges that fail"
  const NotPartOfSubscription := "This charge is not part of a subscription"
  const SuccessMessage := "charge failed event processed"

  function FailedEvent(env: Env, req: WebhookRequest): Option<Stripe.Event<Stripe.Charge>> {
    Stripe.ConstructEvent(env.gateway.verifyChargeEvent(req.payload, req.signature, env.secrets.chargeFailed))
  }

  /** The event passed the signature, type and invoice gates. */
  predicate PassesGates(env: Env, req: WebhookRequest) {
    FailedEvent(env, req).Some? && FailedEvent(env, req).value.eventType == FailedType &&
    FailedEvent(env, req).value.dataObject.invoice.Some?
  }

  /** The record queued for a failed recurring charge. */
  function FailureRecord(env: Env, charge: Stripe.Charge, subscription: Stripe.ExpandedSubscription): (r: Basket.Record)
    requires subscription.customer.sources != []
    ensures r.FailedCharge?
    ensures r.eventType == FailedType && r.recurring && r.frequency == Some(Frequency) && r.service == Service
    ensures r.transactionId == charge.id && r.subscriptionId == Some(subscription.id)
    ensures r.failureCode == charge.failureCode
    // the donor is named by the subscription's customer, not by the webhook payload
    ensures r.lastName == subscription.customer.sources[0].name && r.email == subscription.customer.email
    ensures r.donationAmount == env.zeroDecimalCurrencyFix(charge.amount, charge.currency)
    ensures r.currency == charge.currency && r.created == charge.created
    ensures r.project == Campaign.Project(subscription.metadata)
  {
    Basket.FailedCharge(
      FailedType, subscription.customer.sources[0].name, subscription.customer.email,
      env.zeroDecimalCurrencyFix(charge.amount, charge.currency), charge.currency, charge.created,
      Recurring, Some(Frequency), Service, charge.id, Some(subscription.id),
      Campaign.Project(subscription.metadata), charge.failureCode)
  }

  function ChargeFailedRoute(env: Env, req: WebhookRequest): (o: Outcome)
    // a failed signature check is forbidden, before anything else
    ensures o.response.Forbidden? <==> FailedEvent(env, req).None?
    ensures o.response.Forbidden? ==> o.response.message == SignatureErrorMessage && o.calls == [] && o.queued == []
    ensures FailedEvent(env, req).Some? && FailedEvent(env, req).value.eventType != FailedType ==>
      o == Outcome(Http.Text(IncorrectEvent), [], [])
    // a charge without an invoice is acknowledged without fetching anything
    ensures FailedEvent(env, req).Some? && FailedEvent(env, req).value.eventType == FailedType &&
            FailedEvent(env, req).value.dataObject.invoice.None? ==>
      o == Outcome(Http.Text(NotRecurringCharge), [], [])
    ensures o.calls != [] <==> PassesGates(env, req)
    ensures o.calls != [] ==> o.calls[0] == Stripe.RetrieveChargeRequest(FailedEvent(env, req).value.dataObject.id)
    ensures |o.calls| <= 2
    // lookup failures are 500s that queue nothing
    ensures |o.calls| >= 1 && env.gateway.retrieveCharge(o.calls[0]).Failure? ==>
      o == Outcome(Http.BadImplementation(ExpandChargeError + ": " + Stripe.ErrorText(env.gateway.retrieveCharge(o.calls[0]).error)), [o.calls[0]], [])
    ensures |o.calls| >= 1 && env.gateway.retrieveCharge(o.calls[0]).Success? && !Stripe.Linked(env.gateway.retrieveCharge(o.calls[0]).value) ==>
      o == Outcome(Http.Text(NotPartOfSubscription), [o.calls[0]], [])
    ensures |o.calls| == 2 ==>
      var charge := env.gateway.retrieveCharge(o.calls[0]);
      charge.Success? && Stripe.Linked(charge.value) && o.calls[1] == Stripe.SubscriptionLookup(charge.value)
    ensures |o.calls| == 2 && env.gateway.retrieveSubscription(o.calls[1]).Failure? ==>
      o.response == Http.BadImplementation(RetrieveSubscriptionError + ": " + Stripe.ErrorText(env.gateway.retrieveSubscription(o.calls[1]).error)) &&
      o.queued == []
    // success: exactly one record, built from the fetched charge and subscription
    ensures o.queued != [] <==> o.response == Http.Text(SuccessMessage)
    ensures |o.queued| <= 1
    ensures o.queued != [] ==> |o.calls| == 2 && env.gateway.retrieveSubscription(o.calls[1]).Success?
    ensures o.queued != [] ==>
      var charge := env.gateway.retrieveCharge(o.calls[0]).value;
      var subscription := env.gateway.retrieveSubscription(o.calls[1]).value;
      && o.queued[0].FailedCharge?
      && o.queued[0].eventType == FailedType
      && o.queued[0].recurring && o.queued[0].frequency == Some(Frequency) && o.queued[0].service == Service
      && o.queued[0].transactionId == charge.id
      && o.queued[0].subscriptionId == Some(subscription.id)
      && o.queued[0].failureCode == charge.failureCode
      && o.queued[0].project == Campaign.Project(subscription.metadata)
    // a linked charge always leads to the subscription lookup
    ensures |o.calls| >= 1 && env.gateway.retrieveCharge(o.calls[0]).Success? && Stripe.Linked(env.gateway.retrieveCharge(o.calls[0]).value) ==>
      |o.calls| == 2
    // a found subscription always queues the failure record and answers the success message
    ensures |o.calls| == 2 && env.gateway.retrieveSubscription(o.calls[1]).Success? ==>
      var charge := env.gateway.retrieveCharge(o.calls[0]).value;
      var subscription := env.gateway.retrieveSubscription(o.calls[1]).value;
      if subscription.customer.sources == [] then o.response.Uncaught? && o.queued == []
      else o.queued == [FailureRecord(env, charge, subscription)] && o.response == Http.Text(SuccessMessage)
  {
    match FailedEvent(env, req)
    case None => Outcome(Http.Forbidden(SignatureErrorMessage), [], [])
    case Some(event) =>
      if event.eventType != FailedType then Outcome(Http.Text(IncorrectEvent), [], [])
      else if event.dataObject.invoice.None? then Outcome(Http.Text(NotRecurringCharge), [], [])
      else
        var fetch := Stripe.RetrieveChargeRequest(event.dataObject.id);
        match env.gateway.retrieveCharge(fetch)
        case Failure(err) => Outcome(Http.BadImplementation(ExpandChargeError + ": " + Stripe.ErrorText(err)), [fetch], [])
        case Success(charge) =>
          if !Stripe.Linked(charge) then Outcome(Http.Text(NotPartOfSubscription), [fetch], [])
          else
            var lookup := Stripe.SubscriptionLookup(charge);
            match env.gateway.retrieveSubscription(lookup)
            case Failure(err) =>
              Outcome(Http.BadImplementation(RetrieveSubscriptionError + ": " + Stripe.ErrorText(err)), [fetch, lookup], [])
            case Success(subscription) =>
              if subscription.customer.sources == [] then
                Outcome(Http.Uncaught("TypeError: Cannot read property 'name' of undefined"), [fetch, lookup], [])
              else
                Outcome(Http.Text(SuccessMessage), [fetch, lookup], [FailureRecord(env, charge, subscription)])
  }

  method StripeChargeFailed(w: World, req: WebhookRequest) returns (response: Http.Response)
    modifies w
    ensures response == ChargeFailedRoute(w.env, req).response
    ensures w.calls == old(w.calls) + ChargeFailedRoute(w.env, req).calls
    ensures w.queued == old(w.queued) + ChargeFailedRoute(w.env, req).queued
  {
    var event := Stripe.ConstructEvent(w.env.gateway.verifyChargeEvent(req.payload, req.signature, w.env.secrets.chargeFailed));
    if event.None? {
      return Http.Forbidden(SignatureErrorMessage);
    }
    if event.value.eventType != FailedType {
      return Http.Text(IncorrectEvent);
    }
    var charge := event.value.dataObject;
    if charge.invoice.None? {
      return Http.Text(NotRecurringCharge);
    }
    var expanded := w.Send(Stripe.RetrieveChargeRequest(charge.id), w.env.gateway.retrieveCharge);
    if expanded.Failure? {
      return Http.BadImplementation(ExpandChargeError + ": " + Stripe.ErrorText(expanded.error));
    }
    charge := expanded.value;
    if charge.invoice.None? || !Js.Truthy(charge.invoice.value.subscription) {
      return Http.Text(NotPartOfSubscription);
    }
    var invoice := charge.invoice.value;
    var subscription := w.Send(Stripe.RetrieveSubscription(invoice.customer, invoice.subscription.value, ["customer"]), w.env.gateway.retrieveSubscription);
    if subscription.Failure? {
      return Http.BadImplementation(RetrieveSubscriptionError + ": " + Stripe.ErrorText(subscription.error));
    }
    if subscription.value.customer.sources == [] {
      return Http.Uncaught("TypeError: Cannot read property 'name' of undefined");
    }
    w.Queue(FailureRecord(w.env, charge, subscription.value));
    return Http.Text(SuccessMessage);
  }

  // ---- The file as written ----

  /** As written: `retrieveCharge` is given no callback and returns `undefined`,
      so the handler issues the lookup, then throws reading `invoice` of
      `undefined`; the `try` around the call cannot catch it. */
  function ChargeFailedAsWritten(env: Env, req: WebhookRequest): (o: Outcome)
    ensures o.queued == []
    ensures o.response.Uncaught? <==> PassesGates(env, req)
    ensures PassesGates(env, req) ==> o.calls == [Stripe.RetrieveChargeRequest(FailedEvent(env, req).value.dataObject.id)]
    ensures !PassesGates(env, req) ==> o == ChargeFailedRoute(env, req)
  {
    match FailedEvent(env, req)
    case None => Outcome(Http.Forbidden(SignatureErrorMessage), [], [])
    case Some(event) =>
      if event.eventType != FailedType then Outcome(Http.Text(IncorrectEvent), [], [])
      else if event.dataObject.invoice.None? then Outcome(Http.Text(NotRecurringCharge), [], [])
      else
        Outcome(Http.Uncaught("TypeError: Cannot read property 'invoice' of undefined"), [Stripe.RetrieveChargeRequest(event.dataObject.id)], [])
  }

  /** Every failure the intended handler would report is lost as written:
      the request ends in an uncaught error and nothing reaches the queue. */
  lemma AsWrittenLosesEveryReport(env: Env, req: WebhookRequest)
    requires ChargeFailedRoute(env, req).queued != []
    ensures ChargeFailedAsWritten(env, req).queued == []
    ensures ChargeFailedAsWritten(env, req).response.Uncaught?
    ensures ChargeFailedRoute(env, req).response == Http.Text(SuccessMessage)
  {
  }

  // ---- A concrete delivery that shows the difference ----

  const WitnessCustomer := Stripe.Customer("cus_1", Some("donor@example.org"), [Stripe.Card(Some("Doe"))])
  const WitnessMetadata := Stripe.Metadata(None, None, false, false)
  const WitnessCharge := Stripe.Charge("ch_1", 500, "usd", 1500000000, WitnessMetadata, Stripe.Card(Some("Doe")),
    Some(Stripe.Invoice("cus_1", Some("sub_1"))), [], Some("card_declined"))
  const WitnessSubscription := Stripe.ExpandedSubscription("sub_1", WitnessMetadata, WitnessCustomer)
  const WitnessError := Stripe.StripeError("Error", "unused", None, None)

  /** A provider that verifies every charge.failed delivery and answers every lookup. */
  function WitnessEnv(): Env {
    var gateway := Stripe.Gateway(
      _ => Failure(WitnessError), _ => Failure(WitnessError), _ => Failure(WitnessError),
      _ => Failure(WitnessError),
      _ => Success(WitnessCharge),
      _ => Success(WitnessSubscription),
      _ => Failure(WitnessError), _ => Failure(WitnessError),
      (_, _, _) => Success(Stripe.Event(FailedType, WitnessCharge)),
      (_, _, _) => Failure(WitnessError));
    Env(gateway, (_, _) => 0, (amount, _) => amount as real / 100.0, _ => Failure(IronError("unused")),
        _ => Failure(IronError("unused")), Secrets("", "", "", ""))
  }

  /** For this delivery the intended handler queues the failure record; as written it queues nothing. */
  lemma DeclinedRenewalIsLostAsWritten()
    ensures ChargeFailedRoute(WitnessEnv(), WebhookRequest("{}", Some("t=1"))).queued ==
      [FailureRecord(WitnessEnv(), WitnessCharge, WitnessSubscription)]
    ensures ChargeFailedAsWritten(WitnessEnv(), WebhookRequest("{}", Some("t=1"))).queued == []
  {
  }
}

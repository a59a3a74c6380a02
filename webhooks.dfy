/** The webhook routes of server/routes/index.js: `stripe-charge-refunded`,
    `stripe-dispute` and `stripe-charge-succeeded`. Each passes a fixed
    sequence of gates (signature, event type, linkage, provider errors); a
    gate either answers at once or the handler ends by queueing one record. */
module Webhooks {
  import opened Wrappers
  import Js
  import Stripe
  import Basket
  import Http
  import Campaign
  import opened Runtime

  // ---- stripe-charge-refunded ----

  const RefundedType := "charge.refunded"

  function RefundEvent(env: Env, req: WebhookRequest): Option<Stripe.Event<Stripe.Charge>> {
    Stripe.ConstructEvent(env.gateway.verifyChargeEvent(req.payload, req.signature, env.secrets.chargeRefunded))
  }

  /** A refund made from the dashboard carries a null reason; it is reported as requested by the customer. */
  function RefundReason(r: Stripe.Refund): (reason: string)
    ensures r.reason.None? ==> reason == "requested_by_customer"
    ensures r.reason.Some? ==> reason == r.reason.value
  {
    match r.reason
    case None => "requested_by_customer"
    case Some(given) => given
  }

  function ChargeRefundedRoute(env: Env, req: WebhookRequest): (o: Outcome)
    ensures o.calls == []
    ensures o.response.Forbidden? <==> RefundEvent(env, req).None?
    ensures o.response.Forbidden? ==> o.response.message == SignatureErrorMessage && o.queued == []
    ensures RefundEvent(env, req).Some? && RefundEvent(env, req).value.eventType != RefundedType ==>
      o == Outcome(Http.Text("This hook only processes charge.refunded events"), [], [])
    // the record carries only the event type, the charge id and the first refund's reason and status
    ensures o.queued != [] ==>
      var charge := RefundEvent(env, req).value.dataObject;
      && RefundEvent(env, req).value.eventType == RefundedType
      && charge.refunds != []
      && o.queued == [Basket.StatusChange(RefundedType, charge.id, RefundReason(charge.refunds[0]), charge.refunds[0].status)]
    ensures o.queued != [] <==> o.response == Http.Text("charge event processed")
    ensures |o.queued| <= 1
    // a verified charge.refunded event with a refund always queues its record
    ensures var event := RefundEvent(env, req);
      event.Some? && event.value.eventType == RefundedType && event.value.dataObject.refunds != [] ==>
      var charge := event.value.dataObject;
      o == Outcome(Http.Text("charge event processed"), [],
                   [Basket.StatusChange(RefundedType, charge.id, RefundReason(charge.refunds[0]), charge.refunds[0].status)])
    // a charge without refunds makes the handler throw, with nothing queued
    ensures var event := RefundEvent(env, req);
      event.Some? && event.value.eventType == RefundedType && event.value.dataObject.refunds == [] ==>
      o.response.Uncaught? && o.queued == []
  {
    match RefundEvent(env, req)
    case None => Outcome(Http.Forbidden(SignatureErrorMessage), [], [])
    case Some(event) =>
      if event.eventType != RefundedType then Outcome(Http.Text("This hook only processes charge.refunded events"), [], [])
      else if event.dataObject.refunds == [] then Outcome(Http.Uncaught("TypeError: Cannot read property 'reason' of undefined"), [], [])
      else
        var refund := event.dataObject.refunds[0];
        var record := Basket.StatusChange(event.eventType, event.dataObject.id, RefundReason(refund), refund.status);
        Outcome(Http.Text("charge event processed"), [], [record])
  }

  method StripeChargeRefunded(w: World, req: WebhookRequest) returns (response: Http.Response)
    modifies w
    ensures response == ChargeRefundedRoute(w.env, req).response
    ensures w.calls == old(w.calls)
    ensures w.queued == old(w.queued) + ChargeRefundedRoute(w.env, req).queued
  {
    var event := Stripe.ConstructEvent(w.env.gateway.verifyChargeEvent(req.payload, req.signature, w.env.secrets.chargeRefunded));
    if event.None? {
      return Http.Forbidden(SignatureErrorMessage);
    }
    if event.value.eventType != RefundedType {
      return Http.Text("This hook only processes charge.refunded events");
    }
    var charge := event.value.dataObject;
    if charge.refunds == [] {
      return Http.Uncaught("TypeError: Cannot read property 'reason' of undefined");
    }
    var refund := charge.refunds[0];
    var reason := refund.reason;
    var status := refund.status;
    if reason.None? {
      reason := Some("requested_by_customer");
    }
    w.Queue(Basket.StatusChange(event.value.eventType, charge.id, reason.value, status));
    return Http.Text("charge event processed");
  }

  // ---- stripe-dispute ----

  const DisputeEvents := ["charge.dispute.closed", "charge.dispute.created", "charge.dispute.updated"]
  const AlreadyClosedMessage := "This dispute is already closed"
  const DisputeErrorMessage := "An error occurred while handling the dispute webhook"

  function DisputeEvent(env: Env, req: WebhookRequest): Option<Stripe.Event<Stripe.Dispute>> {
    Stripe.ConstructEvent(env.gateway.verifyDisputeEvent(req.payload, req.signature, env.secrets.dispute))
  }

  /** A close that failed for any reason other than the dispute being closed already. */
  predicate CloseFailed(closed: Result<Stripe.Dispute, Stripe.StripeError>) {
    closed.Failure? && closed.error.message != AlreadyClosedMessage
  }

  /** The `stripe-dispute` route. The "skip the close when the dispute is lost"
      test compares the event object itself with a string, so it never holds:
      every accepted dispute event attempts a close. */
  function DisputeRoute(env: Env, req: WebhookRequest): (o: Outcome)
    ensures o.response.Forbidden? <==> DisputeEvent(env, req).None?
    ensures o.response.Forbidden? ==> o.response.message == SignatureErrorMessage && o.calls == [] && o.queued == []
    // only the three dispute event types get past the type gate, and each attempts exactly one close
    ensures o.calls != [] <==> DisputeEvent(env, req).Some? && DisputeEvent(env, req).value.eventType in DisputeEvents
    ensures o.calls != [] ==> o.calls == [Stripe.CloseDispute(DisputeEvent(env, req).value.dataObject.id)]
    ensures DisputeEvent(env, req).Some? && DisputeEvent(env, req).value.eventType !in DisputeEvents ==>
      o == Outcome(Http.Text("This hook only processes disputes"), [], [])
    // a close error other than "already closed" is fatal and queues nothing
    ensures o.response.BadImplementation? <==> o.calls != [] && CloseFailed(env.gateway.closeDispute(o.calls[0]))
    ensures o.response.BadImplementation? ==> o.response.message == DisputeErrorMessage && o.queued == []
    // the record is queued only after the close step went through (or was already done)
    ensures o.queued != [] ==>
      var event := DisputeEvent(env, req).value;
      && o.calls != [] && !CloseFailed(env.gateway.closeDispute(o.calls[0]))
      && o.queued == [Basket.StatusChange(event.eventType, event.dataObject.charge, event.dataObject.reason, event.dataObject.status)]
    ensures o.queued != [] <==> o.response == Http.Text("dispute processed")
    ensures |o.queued| <= 1
    // a close that succeeds, or finds the dispute closed already, always queues the dispute record
    ensures o.calls != [] && !CloseFailed(env.gateway.closeDispute(o.calls[0])) ==>
      var dispute := DisputeEvent(env, req).value.dataObject;
      && o.response == Http.Text("dispute processed")
      && o.queued == [Basket.StatusChange(DisputeEvent(env, req).value.eventType, dispute.charge, dispute.reason, dispute.status)]
  {
    match DisputeEvent(env, req)
    case None => Outcome(Http.Forbidden(SignatureErrorMessage), [], [])
    case Some(event) =>
      if Js.ArrayIndexOf(DisputeEvents, event.eventType) == -1 then Outcome(Http.Text("This hook only processes disputes"), [], [])
      else
        var dispute := event.dataObject;
        var close := Stripe.CloseDispute(dispute.id);
        if CloseFailed(env.gateway.closeDispute(close)) then Outcome(Http.BadImplementation(DisputeErrorMessage), [close], [])
        else
          var record := Basket.StatusChange(event.eventType, dispute.charge, dispute.reason, dispute.status);
          Outcome(Http.Text("dispute processed"), [close], [record])
  }

  /** Even a newly created dispute that is already lost is sent a close request. */
  lemma LostDisputeIsStillClosed(env: Env, req: WebhookRequest)
    requires DisputeEvent(env, req).Some?
    requires DisputeEvent(env, req).value.eventType == "charge.dispute.created"
    requires DisputeEvent(env, req).value.dataObject.status == "lost"
    ensures DisputeRoute(env, req).calls == [Stripe.CloseDispute(DisputeEvent(env, req).value.dataObject.id)]
  {
  }

  method StripeDispute(w: World, req: WebhookRequest) returns (response: Http.Response)
    modifies w
    ensures response == DisputeRoute(w.env, req).response
    ensures w.calls == old(w.calls) + DisputeRoute(w.env, req).calls
    ensures w.queued == old(w.queued) + DisputeRoute(w.env, req).queued
  {
    var event := Stripe.ConstructEvent(w.env.gateway.verifyDisputeEvent(req.payload, req.signature, w.env.secrets.dispute));
    if event.None? {
      return Http.Forbidden(SignatureErrorMessage);
    }
    if Js.ArrayIndexOf(DisputeEvents, event.value.eventType) == -1 {
      return Http.Text("This hook only processes disputes");
    }
    var dispute := event.value.dataObject;
    var closed := w.Send(Stripe.CloseDispute(dispute.id), w.env.gateway.closeDispute);
    if closed.Failure? && closed.error.message != AlreadyClosedMessage {
      return Http.BadImplementation(DisputeErrorMessage);
    }
    w.Queue(Basket.StatusChange(event.value.eventType, dispute.charge, dispute.reason, dispute.status));
    return Http.Text("dispute processed");
  }

  // ---- stripe-charge-succeeded ----

  const SucceededType := "charge.succeeded"
  const NotSubscriptionMessage := "Charge not part of a subscription"
  const FetchChargeErrorMessage := "An error occurred while fetching the invoice for this charge"
  const FetchSubscriptionErrorMessage := "An error occurred while fetching the subscription for this charge's invoice"
  const UpdateChargeErrorMessage := "An error occurred while updating the charge"

  function SucceededEvent(env: Env, req: WebhookRequest): Option<Stripe.Event<Stripe.Charge>> {
    Stripe.ConstructEvent(env.gateway.verifyChargeEvent(req.payload, req.signature, env.secrets.chargeSuccess))
  }

  /** The record queued for a recurring charge that succeeded. */
  function RecurringDonation(env: Env, charge: Stripe.Charge, subscription: Stripe.ExpandedSubscription): (r: Basket.Record)
    requires subscription.customer.sources != []
    ensures r.Donation? && r.eventType == "donation"
    ensures r.recurring && r.frequency == Some("monthly") && r.service == "stripe"
    ensures r.transactionId == charge.id && r.subscriptionId == Some(subscription.id)
    ensures r.currency == charge.currency && r.created == charge.created
    ensures r.lastName == subscription.customer.sources[0].name && r.email == subscription.customer.email
    ensures r.donationAmount == env.zeroDecimalCurrencyFix(charge.amount, charge.currency)
    ensures r.project == Campaign.Project(subscription.metadata)
  {
    Basket.Donation(
      "donation", subscription.customer.sources[0].name, subscription.customer.email,
      env.zeroDecimalCurrencyFix(charge.amount, charge.currency), charge.currency, charge.created,
      true, Some("monthly"), "stripe", charge.id, Some(subscription.id), Campaign.Project(subscription.metadata))
  }

  /** The bookkeeping update written back on the charge. */
  function DescriptionUpdate(charge: Stripe.Charge, subscription: Stripe.ExpandedSubscription): (c: Stripe.Call)
    ensures c.UpdateCharge? && c.chargeId == charge.id
    ensures c.update.metadata == subscription.metadata
    ensures c.update.description == "Thunderbird monthly" <==> subscription.metadata.thunderbird
    ensures c.update.description == "glassroomnyc monthly" <==> !subscription.metadata.thunderbird && subscription.metadata.glassroomnyc
    ensures c.update.description == "Mozilla Foundation Monthly Donation" <==> !subscription.metadata.thunderbird && !subscription.metadata.glassroomnyc
  {
    Stripe.UpdateCharge(charge.id, Stripe.ChargeUpdate(subscription.metadata, Campaign.ChargeDescription(subscription.metadata)))
  }

  function ChargeSucceededRoute(env: Env, req: WebhookRequest): (o: Outcome)
    ensures o.response.Forbidden? <==> SucceededEvent(env, req).None?
    ensures o.response.Forbidden? ==> o.response.message == SignatureErrorMessage && o.calls == [] && o.queued == []
    ensures SucceededEvent(env, req).Some? && SucceededEvent(env, req).value.eventType != SucceededType ==>
      o == Outcome(Http.Text("This hook only processes charge succeeded events"), [], [])
    // nothing is fetched before both gates, and the charge is fetched first, with its invoice
    ensures o.calls != [] <==> SucceededEvent(env, req).Some? && SucceededEvent(env, req).value.eventType == SucceededType
    ensures o.calls != [] ==> o.calls[0] == Stripe.RetrieveChargeRequest(SucceededEvent(env, req).value.dataObject.id)
    ensures |o.calls| <= 3
    ensures |o.calls| >= 1 && env.gateway.retrieveCharge(o.calls[0]).Failure? ==>
      o == Outcome(Http.BadImplementation(FetchChargeErrorMessage), [o.calls[0]], [])
    // a charge outside any subscription is acknowledged with nothing queued
    ensures |o.calls| >= 1 && env.gateway.retrieveCharge(o.calls[0]).Success? && !Stripe.Linked(env.gateway.retrieveCharge(o.calls[0]).value) ==>
      o == Outcome(Http.Text(NotSubscriptionMessage), [o.calls[0]], [])
    ensures |o.calls| >= 2 ==>
      var charge := env.gateway.retrieveCharge(o.calls[0]);
      charge.Success? && Stripe.Linked(charge.value) && o.calls[1] == Stripe.SubscriptionLookup(charge.value)
    ensures |o.calls| == 2 && env.gateway.retrieveSubscription(o.calls[1]).Failure? ==>
      o.response == Http.BadImplementation(FetchSubscriptionErrorMessage) && o.queued == []
    // the donation is queued before the charge update is sent, so both outcomes of the update keep it
    ensures o.queued != [] <==> |o.calls| == 3
    ensures |o.queued| <= 1
    ensures o.queued != [] ==> env.gateway.retrieveSubscription(o.calls[1]).Success?
    ensures o.queued != [] ==>
      var charge := env.gateway.retrieveCharge(o.calls[0]).value;
      var subscription := env.gateway.retrieveSubscription(o.calls[1]).value;
      && o.queued[0].Donation?
      && o.queued[0].eventType == "donation"
      && o.queued[0].recurring && o.queued[0].frequency == Some("monthly") && o.queued[0].service == "stripe"
      && o.queued[0].transactionId == charge.id
      && o.queued[0].subscriptionId == Some(subscription.id)
      && o.queued[0].project == Campaign.Project(subscription.metadata)
      && o.calls[2] == DescriptionUpdate(charge, subscription)
    ensures |o.calls| == 3 ==>
      o.response == (if env.gateway.updateCharge(o.calls[2]).Failure? then Http.BadImplementation(UpdateChargeErrorMessage)
                     else Http.Text("Charge updated"))
    // a linked charge always leads to the subscription lookup
    ensures |o.calls| >= 1 && env.gateway.retrieveCharge(o.calls[0]).Success? && Stripe.Linked(env.gateway.retrieveCharge(o.calls[0]).value) ==>
      |o.calls| >= 2
    // a found subscription always queues the donation and sends the update
    ensures |o.calls| >= 2 && env.gateway.retrieveSubscription(o.calls[1]).Success? ==>
      var charge := env.gateway.retrieveCharge(o.calls[0]).value;
      var subscription := env.gateway.retrieveSubscription(o.calls[1]).value;
      if subscription.customer.sources == [] then o.response.Uncaught? && o.queued == [] && |o.calls| == 2
      else o.queued == [RecurringDonation(env, charge, subscription)] && o.calls[2..] == [DescriptionUpdate(charge, subscription)]
  {
    match SucceededEvent(env, req)
    case None => Outcome(Http.Forbidden(SignatureErrorMessage), [], [])
    case Some(event) =>
      if event.eventType != SucceededType then Outcome(Http.Text("This hook only processes charge succeeded events"), [], [])
      else
        var fetch := Stripe.RetrieveChargeRequest(event.dataObject.id);
        match env.gateway.retrieveCharge(fetch)
        case Failure(_) => Outcome(Http.BadImplementation(FetchChargeErrorMessage), [fetch], [])
        case Success(charge) =>
          if !Stripe.Linked(charge) then Outcome(Http.Text(NotSubscriptionMessage), [fetch], [])
          else
            var lookup := Stripe.SubscriptionLookup(charge);
            match env.gateway.retrieveSubscription(lookup)
            case Failure(_) => Outcome(Http.BadImplementation(FetchSubscriptionErrorMessage), [fetch, lookup], [])
            case Success(subscription) =>
              if subscription.customer.sources == [] then
                Outcome(Http.Uncaught("TypeError: Cannot read property 'name' of undefined"), [fetch, lookup], [])
              else
                var record := RecurringDonation(env, charge, subscription);
                var update := DescriptionUpdate(charge, subscription);
                if env.gateway.updateCharge(update).Failure? then
                  Outcome(Http.BadImplementation(UpdateChargeErrorMessage), [fetch, lookup, update], [record])
                else
                  Outcome(Http.Text("Charge updated"), [fetch, lookup, update], [record])
  }

  method StripeChargeSucceeded(w: World, req: WebhookRequest) returns (response: Http.Response)
    modifies w
    ensures response == ChargeSucceededRoute(w.env, req).response
    ensures w.calls == old(w.calls) + ChargeSucceededRoute(w.env, req).calls
    ensures w.queued == old(w.queued) + ChargeSucceededRoute(w.env, req).queued
  {
    var event := Stripe.ConstructEvent(w.env.gateway.verifyChargeEvent(req.payload, req.signature, w.env.secrets.chargeSuccess));
    if event.None? {
      return Http.Forbidden(SignatureErrorMessage);
    }
    if event.value.eventType != SucceededType {
      return Http.Text("This hook only processes charge succeeded events");
    }
    var charge := w.Send(Stripe.RetrieveChargeRequest(event.value.dataObject.id), w.env.gateway.retrieveCharge);
    if charge.Failure? {
      return Http.BadImplementation(FetchChargeErrorMessage);
    }
    if charge.value.invoice.None? || !Js.Truthy(charge.value.invoice.value.subscription) {
      return Http.Text(NotSubscriptionMessage);
    }
    var invoice := charge.value.invoice.value;
    var subscription := w.Send(Stripe.RetrieveSubscription(invoice.customer, invoice.subscription.value, ["customer"]), w.env.gateway.retrieveSubscription);
    if subscription.Failure? {
      return Http.BadImplementation(FetchSubscriptionErrorMessage);
    }
    var metadata := subscription.value.metadata;
    var description := "Mozilla Foundation Monthly Donation";
    if metadata.thunderbird {
      description := "Thunderbird monthly";
    } else if metadata.glassroomnyc {
      description := "glassroomnyc monthly";
    }
    var customer := subscription.value.customer;
    if customer.sources == [] {
      return Http.Uncaught("TypeError: Cannot read property 'name' of undefined");
    }
    w.Queue(RecurringDonation(w.env, charge.value, subscription.value));
    var updated := w.Send(Stripe.UpdateCharge(charge.value.id, Stripe.ChargeUpdate(metadata, description)), w.env.gateway.updateCharge);
    if updated.Failure? {
      return Http.BadImplementation(UpdateChargeErrorMessage);
    }
    return Http.Text("Charge updated");
  }
}

/** The collaborators a handler talks to, and the state its calls change: the
    requests issued to the provider and the records appended to the basket queue. */
module Runtime {
  import opened Wrappers
  import Stripe
  import Basket
  import Http

  /** The payload sealed into the `session` cookie. */
  datatype Cookie = Cookie(stripeCustomerId: Option<string>)

  datatype IronError = IronError(message: string)

  /** The per-endpoint webhook signing secrets. */
  datatype Secrets = Secrets(chargeRefunded: string, dispute: string, chargeSuccess: string, chargeFailed: string)

  /** Everything a handler cannot see into: the provider, `amountModifier.stripe`,
      `basket.zeroDecimalCurrencyFix`, the cookie seal/unseal and the secrets. */
  datatype Env = Env(
    gateway: Stripe.Gateway,
    amountModifier: (string, string) -> int,
    zeroDecimalCurrencyFix: (int, string) -> real,
    seal: Cookie -> Result<string, IronError>,
    unseal: string -> Result<Cookie, IronError>,
    secrets: Secrets)

  /** A webhook delivery: the raw payload and the `stripe-signature` header. */
  datatype WebhookRequest = WebhookRequest(payload: string, signature: Option<string>)

  const SignatureErrorMessage := "An error occurred while verifying the webhook signing secret"

  /** The whole effect of one request: the answer, the provider requests issued
      in order, and the records queued in order. */
  datatype Outcome = Outcome(response: Http.Response, calls: seq<Stripe.Call>, queued: seq<Basket.Record>)

  class World {
    const env: Env
    var calls: seq<Stripe.Call>
    var queued: seq<Basket.Record>

    constructor (env: Env)
      ensures this.env == env && calls == [] && queued == []
    {
      this.env := env;
      calls := [];
      queued := [];
    }

    /** Issues `c` to the provider and awaits `reply`, its answer. */
    method Send<X>(c: Stripe.Call, reply: Stripe.Call -> Result<X, Stripe.StripeError>) returns (r: Result<X, Stripe.StripeError>)
      modifies this
      ensures calls == old(calls) + [c] && queued == old(queued)
      ensures r == reply(c)
    {
      calls := calls + [c];
      r := reply(c);
    }

    /** `basket.queue(record)`. */
    method Queue(record: Basket.Record)
      modifies this
      ensures queued == old(queued) + [record] && calls == old(calls)
    {
      queued := queued + [record];
    }
  }
}

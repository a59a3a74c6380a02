/** What a handler answers: a JSON body, a plain text reply, or a Boom error. */
module Http {
  import opened Wrappers

  /** `{code, rawType}` copied from a provider error. */
  datatype ErrorDetail = ErrorDetail(code: Option<string>, rawType: Option<string>)

  datatype Body =
    | OneTime(frequency: string, amount: int, currency: string, id: string, signup: bool, country: string, email: string)
    | Monthly(frequency: string, currency: string, quantity: int, id: string, signup: bool, country: string, email: string)
    | Upgraded(frequency: string, currency: string, quantity: int, id: string)

  /** What the response does to the `session` cookie. */
  datatype Session = SetSession(token: string) | Untouched | Cleared

  datatype Response =
      /** 200 with a JSON body. */
    | Ok(body: Body, session: Session)
      /** 200 with a plain text body. */
    | Text(message: string)
      /** 400; `stripe` is `output.payload.stripe`, `data` is Boom's data argument. */
    | BadRequest(message: string, stripe: Option<ErrorDetail>, data: Option<ErrorDetail>)
      /** 403. */
    | Forbidden(message: string)
      /** 500 built by the handler. */
    | BadImplementation(message: string)
      /** An exception escapes the handler; the framework answers 500. */
    | Uncaught(error: string)
}

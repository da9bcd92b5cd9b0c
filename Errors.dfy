/** What the controllers throw, and how their catch blocks turn errors into HTTP errors. */
module Errors {
  import opened Variants

  datatype Error =
    | HttpError(message: string, status: int)    // an instance of class HttpError
    | StatusObject(status: int, message: string) // a thrown `{ status, message }` literal
    | Plain(message: string)                     // `new Error(message)`
    | TypeError                                  // a runtime TypeError
    | External                                   // raised by a collaborator outside the model

  /**
   * A client error as each controller variant throws it: the CommonJS controller throws
   * an HttpError, the TypeScript controller a plain `{ status, message }` object.
   */
  function Thrown(d: Dialect, message: string, status: int): (e: Error)
    ensures e.HttpError? <==> d == CommonJs
    ensures e.HttpError? || e.StatusObject?
    ensures e.message == message && e.status == status
  {
    match d
    case CommonJs => HttpError(message, status)
    case TypeScript => StatusObject(status, message)
  }

  const TryAgainLater := "Please try again later"

  /** `handleGenericError`: whatever was caught, a 500 with a generic message. */
  function HandleGenericError(e: Error): (r: Error)
    ensures r == HttpError(TryAgainLater, 500)
  {
    HttpError(TryAgainLater, 500)
  }

  /** `handleErrors`: an HttpError passes through unchanged, anything else becomes a 500. */
  function HandleErrors(e: Error): (r: Error)
    ensures e.HttpError? ==> r == e
    ensures !e.HttpError? ==> r == HttpError(TryAgainLater, 500)
  {
    if e.HttpError? then e else HandleGenericError(e)
  }

  /** What reaches the client is always an HttpError, and mapping twice changes nothing. */
  lemma HandleErrorsLaws(e: Error)
    ensures HandleErrors(e).HttpError?
    ensures HandleErrors(HandleErrors(e)) == HandleErrors(e)
    ensures HandleErrors(e).status == (if e.HttpError? then e.status else 500)
    ensures HandleErrors(e) == e || HandleErrors(e) == HandleGenericError(e)
  {
  }
}

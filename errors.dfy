/** Failure-carrying values shared by both services, and the `handleError`
    routine that each service applies to a failed HTTP call. */
module Errors {

  datatype Option<+T> = None | Some(value: T)

  datatype Result<+T, +E> = Success(value: T) | Failure(error: E)

  /** The settled state of a call that yields no value: it either passed or
      failed with an error. Also used for the reply of a remote call. */
  datatype Outcome<+E> = Pass | Fail(error: E)

  /** What the HTTP transport reports when a request fails. The transport
      may attach a user-facing message; `None` stands for a missing one. */
  datatype HttpError = HttpError(status: int, feedbackMessage: Option<string>)

  /** The value a rejected promise of either service carries: the
      transport's user-facing message, or the raw transport error. */
  datatype Rejection = Feedback(message: string) | Raw(error: HttpError)

  /** True when the rejection value carries a user-facing message that
      JavaScript treats as truthy (a present, non-empty string). */
  predicate HasFeedback(x: Rejection) {
    x.Raw? && x.error.feedbackMessage.Some? && x.error.feedbackMessage.value != ""
  }

  /** `error.feedbackMessage || error`: the user-facing message when there
      is one, otherwise the value itself. A message string has no
      `feedbackMessage` property, so it is passed through as it is. */
  function HandleError(x: Rejection): (r: Rejection)
    ensures HasFeedback(x) ==> r == Feedback(x.error.feedbackMessage.value)
    ensures !HasFeedback(x) ==> r == x
    ensures !HasFeedback(r)
  {
    if HasFeedback(x) then Feedback(x.error.feedbackMessage.value) else x
  }

  /** A rejection that already went through `handleError` is not changed
      by a second pass; this is why `createOrder`'s own handler leaves a
      rejection from `removeAllItems` as it is. */
  lemma HandleErrorIdempotent(x: Rejection)
    ensures HandleError(HandleError(x)) == HandleError(x)
  {
  }

  /** The rejection a service produces for a failed transport call. */
  function Rejected(e: HttpError): (r: Rejection)
    ensures r == (if e.feedbackMessage.Some? && e.feedbackMessage.value != ""
                  then Feedback(e.feedbackMessage.value) else Raw(e))
  {
    HandleError(Raw(e))
  }
}

/** The uniform result envelope every backend call produces, and the two ways a call can
    come back to the code that awaited it. */
module Envelopes {

  datatype Option<T> = None | Some(value: T)

  /** `{success, statusCode, data?, message?, error?}`: an absent optional field is `None`. */
  datatype Envelope<T> = Envelope(
    success: bool,
    statusCode: int,
    data: Option<T>,
    message: Option<string>,
    error: Option<string>)

  /** What the HTTP client hands a service: the body of a response it resolved with, or a
      rejection carrying the transport error's message and, when the backend answered, the
      body it sent (`error.response.data`). */
  datatype Reply<T> =
    | Delivered(body: Envelope<T>)
    | Errored(errorMessage: string, responseBody: Option<Envelope<T>>)

  /** What an awaited service call gives a page: the envelope it returned, or a thrown error
      that the page's `catch` receives. */
  datatype Outcome<T> = Returned(envelope: Envelope<T>) | Threw

  /** The body the backend sent, whichever way the client delivered it. */
  function BackendBody<T>(reply: Reply<T>): (b: Option<Envelope<T>>)
    ensures reply.Delivered? ==> b == Some(reply.body)
    ensures reply.Errored? ==> b == reply.responseBody
  {
    match reply
    case Delivered(body) => Some(body)
    case Errored(_, body) => body
  }

  /** The pages' test `res.success && res.data`: data is present (an empty list is still
      present, since every array is truthy). */
  predicate HasData<T>(e: Envelope<T>) {
    e.success && e.data.Some?
  }

  /** `HasData` on an awaited call: it returned, and its envelope carries data. */
  predicate Succeeded<T>(o: Outcome<T>) {
    o.Returned? && HasData(o.envelope)
  }

  /** The pages' `res.message || fallback`: an absent or empty message is falsy. */
  function MessageOr<T>(e: Envelope<T>, fallback: string): (m: string)
    ensures e.message.Some? && e.message.value != "" ==> m == e.message.value
    ensures e.message.None? || e.message.value == "" ==> m == fallback
  {
    if e.message.Some? && e.message.value != "" then e.message.value else fallback
  }
}

/** The authentication service: `login` lets failures propagate, `register` turns them into
    the backend's body or `null`. */
module AuthService {
  import opened Envelopes
  import opened Domain

  /** `login`: returns the response body; a rejected request is not caught, so it reaches
      the caller as a thrown error. */
  function Login(reply: Reply<AuthData>): (r: Outcome<AuthData>)
    ensures r.Returned? <==> reply.Delivered?
    ensures r.Returned? ==> r.envelope == reply.body
  {
    match reply
    case Delivered(body) => Returned(body)
    case Errored(_, _) => Threw
  }

  /** `register`: the response body, else the backend's error body, else `null` (`None`). */
  function Register(reply: Reply<AuthData>): (r: Option<Envelope<AuthData>>)
    ensures reply.Delivered? ==> r == Some(reply.body)
    ensures reply.Errored? && reply.responseBody.Some? ==> r == reply.responseBody
    ensures reply.Errored? && reply.responseBody.None? ==> r.None?
  {
    match reply
    case Delivered(body) => Some(body)
    case Errored(_, Some(body)) => Some(body)
    case Errored(_, None) => None
  }

  /** Where `login` returns, `register` returns the same body; where `login` throws,
      `register` still answers, with the backend's body if it sent one. */
  lemma RegisterExtendsLogin(reply: Reply<AuthData>)
    ensures Login(reply).Returned? ==> Register(reply) == Some(Login(reply).envelope)
    ensures Login(reply).Threw? ==> Register(reply) == reply.responseBody
  {
  }

  /** `register` yields `null` exactly when the backend sent no body at all. */
  lemma RegisterNullIffNoBody(reply: Reply<AuthData>)
    ensures Register(reply).None? <==> BackendBody(reply).None?
  {
  }
}

/** The applications service: one request per backend operation, each wrapped in a
    try/catch that turns every failure into a returned envelope. */
module ApplicationsService {
  import opened Envelopes
  import opened Domain

  datatype Verb = Get | Post | Patch

  datatype RequestBody = NoBody | CreateBody(input: CreateApplicationInput) | StatusBody(status: Status)

  datatype Request = Request(verb: Verb, path: string, body: RequestBody)

  /** The four operations the service exposes. */
  datatype Operation =
    | ListApplications
    | FetchStats
    | Create(input: CreateApplicationInput)
    | UpdateStatus(id: string, status: Status)

  const Base: string := "/applications"

  /** The request each operation issues. */
  function RequestOf(op: Operation): (q: Request)
    ensures op.ListApplications? ==> q == Request(Get, Base, NoBody)
    ensures op.FetchStats? ==> q == Request(Get, Base + "/stats", NoBody)
    ensures op.Create? ==> q == Request(Post, Base, CreateBody(op.input))
    ensures op.UpdateStatus? ==> q == Request(Patch, Base + "/" + op.id + "/status", StatusBody(op.status))
  {
    match op
    case ListApplications => Request(Get, Base, NoBody)
    case FetchStats => Request(Get, Base + "/stats", NoBody)
    case Create(input) => Request(Post, Base, CreateBody(input))
    case UpdateStatus(id, status) => Request(Patch, Base + "/" + id + "/status", StatusBody(status))
  }

  /** A status update's path names exactly the application it was built for. */
  lemma StatusPathNamesId(id: string, status: Status)
    ensures var p := RequestOf(UpdateStatus(id, status)).path;
      |p| == |Base| + 1 + |id| + 7 && p[|Base| + 1..|Base| + 1 + |id|] == id
  {
    var p := RequestOf(UpdateStatus(id, status)).path;
    assert p == Base + "/" + id + "/status";
    assert p[|Base| + 1..|Base| + 1 + |id|] == id;
  }

  /** Distinct operations never issue the same request. */
  lemma RequestOfInjective(a: Operation, b: Operation)
    requires RequestOf(a) == RequestOf(b)
    ensures a == b
  {
    match a
    case ListApplications =>
    case FetchStats =>
    case Create(_) =>
    case UpdateStatus(id, _) =>
      StatusPathNamesId(id, a.status);
      StatusPathNamesId(b.id, b.status);
  }

  /** The envelope a catch block builds when the backend sent no body. */
  function TransportFailure<T>(defaultMessage: string, errorMessage: string): (r: Envelope<T>)
    ensures !r.success && r.statusCode == 500 && r.data.None?
    ensures r.message == Some(defaultMessage) && r.error == Some(errorMessage)
  {
    Envelope(false, 500, None, Some(defaultMessage), Some(errorMessage))
  }

  /** What every function of the service returns for a reply: the backend's body whenever
      there is one (on success and on failure alike), else a synthesised failure. */
  ghost predicate Normalised<T>(reply: Reply<T>, defaultMessage: string, r: Envelope<T>) {
    match reply
    case Delivered(body) => r == body
    case Errored(msg, Some(body)) => r == body
    case Errored(msg, None) => r == TransportFailure(defaultMessage, msg)
  }

  /** The shared try/catch: return the response body, or pass `error.response.data` through,
      or synthesise the failure envelope. Nothing is rethrown. */
  function Normalise<T>(reply: Reply<T>, defaultMessage: string): (r: Envelope<T>)
    ensures Normalised(reply, defaultMessage, r)
  {
    match BackendBody(reply)
    case Some(body) => body
    case None => TransportFailure(defaultMessage, reply.errorMessage)
  }

  /** A normalised envelope reports success, or carries data, only if the backend sent it. */
  lemma SuccessComesFromBackend<T>(reply: Reply<T>, defaultMessage: string, r: Envelope<T>)
    requires Normalised(reply, defaultMessage, r)
    requires r.success || r.data.Some?
    ensures BackendBody(reply) == Some(r)
  {
  }

  /** The contract pins the envelope down: there is one normalised answer per reply. */
  lemma NormalisedUnique<T>(reply: Reply<T>, defaultMessage: string, r1: Envelope<T>, r2: Envelope<T>)
    requires Normalised(reply, defaultMessage, r1) && Normalised(reply, defaultMessage, r2)
    ensures r1 == r2
  {
  }

  function GetApplications(reply: Reply<seq<Application>>): (r: Envelope<seq<Application>>)
    ensures Normalised(reply, "Failed to fetch applications", r)
  {
    Normalise(reply, "Failed to fetch applications")
  }

  function GetApplicationStats(reply: Reply<ApplicationStats>): (r: Envelope<ApplicationStats>)
    ensures Normalised(reply, "Failed to fetch stats", r)
  {
    Normalise(reply, "Failed to fetch stats")
  }

  function CreateApplication(reply: Reply<Application>): (r: Envelope<Application>)
    ensures Normalised(reply, "Failed to create application", r)
  {
    Normalise(reply, "Failed to create application")
  }

  function UpdateApplicationStatus(reply: Reply<Application>): (r: Envelope<Application>)
    ensures Normalised(reply, "Failed to update status", r)
  {
    Normalise(reply, "Failed to update status")
  }
}

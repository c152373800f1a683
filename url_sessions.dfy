/** The `URLSession` extension: `getData(for:)` validates one transport result and
    classifies every failure as a `NetworkError`; `getData(from:)` delegates to it. */
module Sessions {
  import opened Wrappers
  import opened FoundationTypes
  import opened NetworkErrors
  import Requests

  /** The parts of an `HTTPURLResponse` the library hands back to its callers. */
  datatype HttpResponse = HttpResponse(url: Url, statusCode: int, headerFields: map<string, string>)

  /** The `URLResponse` a transport returns: an HTTP response, or one for another
      scheme (a `file:` or `data:` URL, say). */
  datatype UrlResponse = Http(http: HttpResponse) | NonHttp(url: Url)

  /** What awaiting `data(for:)` yields: a thrown error, or data and a response. */
  datatype TransportOutcome =
    | Threw(error: AnyError)
    | Returned(data: Bytes, response: UrlResponse)

  /** The transport: `URLSession.data(for:)`, one outcome per request. */
  type Session = Requests.Request -> TransportOutcome

  /** The value `getData` returns: the body and the HTTP response. */
  datatype Exchange = Exchange(data: Bytes, response: HttpResponse)

  /** The `do` block of `getData(for:)`: the awaited outcome, and the `guard` that
      throws `nonHTTP` when the response is not an `HTTPURLResponse`. */
  function Attempt(outcome: TransportOutcome): Result<Exchange, AnyError> {
    match outcome
    case Threw(err) => Failure(err)
    case Returned(data, Http(r)) => Success(Exchange(data, r))
    case Returned(_, NonHttp(_)) => Failure(Net(NonHTTP))
  }

  /** The two `catch` clauses: a `NetworkError` is rethrown as it is, any other
      error is wrapped in `general`. */
  function Rethrow(err: AnyError): NetworkError {
    match err
    case Net(e) => e
    case Foreign(_) => General(err)
  }

  /** The classification `getData(for:)` makes of one transport outcome. */
  function Classify(outcome: TransportOutcome): (r: Result<Exchange, NetworkError>)
    ensures r.Success? <==> outcome.Returned? && outcome.response.Http?
    ensures r.Success? ==> r.value.data == outcome.data && r.value.response == outcome.response.http
    ensures outcome.Returned? && outcome.response.NonHttp? ==> r == Failure(NonHTTP)
    ensures outcome.Threw? && outcome.error.Net? ==> r == Failure(outcome.error.err)
    ensures outcome.Threw? && outcome.error.Foreign? ==> r == Failure(General(outcome.error))
  {
    match Attempt(outcome)
    case Success(x) => Success(x)
    case Failure(err) => Failure(Rethrow(err))
  }

  /** `getData(for:)`. */
  function GetDataFor(session: Session, request: Requests.Request): (r: Result<Exchange, NetworkError>)
    ensures r == Classify(session(request))
    ensures r.Success? ==> session(request) == Returned(r.value.data, Http(r.value.response))
    ensures r.Failure? ==> session(request).Threw? || session(request).response.NonHttp?
  {
    Classify(session(request))
  }

  /** `getData(from:)`: the same as `getData(for:)` on `URLRequest(url:)`. */
  function GetDataFrom(session: Session, url: Url): (r: Result<Exchange, NetworkError>)
    ensures r == Classify(session(Requests.FromUrl(url)))
    ensures r.Success? ==> session(Requests.FromUrl(url)) == Returned(r.value.data, Http(r.value.response))
    ensures r.Failure? ==> session(Requests.FromUrl(url)).Threw? || session(Requests.FromUrl(url)).response.NonHttp?
  {
    GetDataFor(session, Requests.FromUrl(url))
  }

  /** The classification adds no `general` layer around one of the library's own
      errors: a `general` whose cause is a `NetworkError` was thrown by the
      transport exactly as it comes out. */
  lemma NoDoubleWrapping(outcome: TransportOutcome, c: NetworkError)
    requires Classify(outcome) == Failure(General(Net(c)))
    ensures outcome == Threw(Net(General(Net(c))))
  {
  }

  /** A `general` error is produced only from a thrown error, and carries it. */
  lemma GeneralOnlyFromThrown(outcome: TransportOutcome, c: AnyError)
    requires Classify(outcome) == Failure(General(c))
    ensures outcome.Threw?
    ensures outcome.error == c || outcome.error == Net(General(c))
  {
  }

  /** Unless the transport itself threw one of the library's errors, a failure of
      `getData` is `general` (transport failure) or `nonHTTP`, never `status` or `json`. */
  lemma TransportFailuresClassified(outcome: TransportOutcome)
    requires !(outcome.Threw? && outcome.error.Net?)
    ensures Classify(outcome).Failure? ==> Classify(outcome).error.General? || Classify(outcome).error.NonHTTP?
  {
  }
}

/** The default `getJSON` and `postJSON` of the `NetworkInteractor` protocol
    extension: validate the status, then (for `getJSON`) decode. */
module Interactor {
  import opened Wrappers
  import opened FoundationTypes
  import opened NetworkErrors
  import Requests
  import opened Sessions

  /** `JSONDecoder().decode(type, from:)` for one target type `T`. */
  type Decoder<T> = Bytes -> Result<T, AnyError>

  /** The transport returned an HTTP response with status 200. */
  predicate Ok(outcome: TransportOutcome) {
    outcome.Returned? && outcome.response.Http? && outcome.response.http.statusCode == 200
  }

  /** The transport returned an HTTP response with a status other than 200. */
  predicate NotOk(outcome: TransportOutcome) {
    outcome.Returned? && outcome.response.Http? && outcome.response.http.statusCode != 200
  }

  /** `getJSON(request:type:)`: only status 200 is a success, the status is checked
      before the body is decoded, and a decoding error becomes `json`. */
  function GetJSON<T>(session: Session, request: Requests.Request, decode: Decoder<T>): (r: Result<T, NetworkError>)
    ensures r.Success? ==> Ok(session(request)) && decode(session(request).data) == Success(r.value)
    ensures GetDataFor(session, request).Failure? ==> r == Failure(GetDataFor(session, request).error)
    ensures NotOk(session(request)) ==> r == Failure(Status(session(request).response.http.statusCode))
    ensures Ok(session(request)) && decode(session(request).data).Failure?
            ==> r == Failure(Json(decode(session(request).data).error))
  {
    match GetDataFor(session, request)
    case Failure(e) => Failure(e)
    case Success(Exchange(data, response)) =>
      if response.statusCode == 200 then
        match decode(data)
        case Success(v) => Success(v)
        case Failure(err) => Failure(Json(err))
      else
        Failure(Status(response.statusCode))
  }

  /** `postJSON(request:)`: succeeds exactly on status 200, whatever the body. */
  function PostJSON(session: Session, request: Requests.Request): (r: Outcome<NetworkError>)
    ensures r.Pass? <==> Ok(session(request))
    ensures GetDataFor(session, request).Failure? ==> r == Fail(GetDataFor(session, request).error)
    ensures NotOk(session(request)) ==> r == Fail(Status(session(request).response.http.statusCode))
  {
    match GetDataFor(session, request)
    case Failure(e) => Fail(e)
    case Success(Exchange(_, response)) =>
      if response.statusCode != 200 then Fail(Status(response.statusCode)) else Pass
  }

  /** Status 200 and a body that decodes to `v`: `getJSON` returns `v`. */
  lemma GetJSONDecoded<T>(session: Session, request: Requests.Request, decode: Decoder<T>, data: Bytes, v: T)
    requires Ok(session(request)) && session(request).data == data && decode(data) == Success(v)
    ensures GetJSON(session, request, decode) == Success(v)
  {
  }

  /** Status 200 and a body that does not decode: `json` with the decoder's error,
      never `status` or `general`. */
  lemma GetJSONDecodeFailure<T>(session: Session, request: Requests.Request, decode: Decoder<T>, data: Bytes, err: AnyError)
    requires Ok(session(request)) && session(request).data == data && decode(data) == Failure(err)
    ensures GetJSON(session, request, decode) == Failure(Json(err))
  {
  }

  /** A status other than 200 is `status` with that code, and the decoder makes no
      difference: a non-200 body is never decoded. */
  lemma GetJSONIgnoresDecoderUnlessOk<T>(session: Session, request: Requests.Request, d1: Decoder<T>, d2: Decoder<T>)
    requires !Ok(session(request))
    ensures GetJSON(session, request, d1) == GetJSON(session, request, d2)
    ensures GetJSON(session, request, d1).Failure?
  {
  }

  /** The decoder is applied to the body of the 200 response and to nothing else:
      two decoders that agree on that body give the same result. */
  lemma GetJSONDecodesOnlyOkBody<T>(session: Session, request: Requests.Request, d1: Decoder<T>, d2: Decoder<T>)
    requires Ok(session(request)) ==> d1(session(request).data) == d2(session(request).data)
    ensures GetJSON(session, request, d1) == GetJSON(session, request, d2)
  {
  }

  /** `postJSON` does not look at the response body. */
  lemma PostJSONIgnoresBody(s1: Session, s2: Session, request: Requests.Request, d1: Bytes, d2: Bytes, response: UrlResponse)
    requires s1(request) == Returned(d1, response) && s2(request) == Returned(d2, response)
    ensures PostJSON(s1, request) == PostJSON(s2, request)
  {
  }

  /** Where no HTTP 200 exchange happened, `getJSON` and `postJSON` fail with the
      same error. */
  lemma SameErrorsUnlessOk<T>(session: Session, request: Requests.Request, decode: Decoder<T>)
    requires !Ok(session(request))
    ensures GetJSON(session, request, decode).Failure? && PostJSON(session, request).Fail?
    ensures GetJSON(session, request, decode).error == PostJSON(session, request).error
  {
  }

  /** A `status` or `json` error means an HTTP exchange took place, unless the
      transport itself threw that very error. */
  lemma StatusOrJsonMeansExchange<T>(session: Session, request: Requests.Request, decode: Decoder<T>)
    requires GetJSON(session, request, decode).Failure?
    requires GetJSON(session, request, decode).error.Status? || GetJSON(session, request, decode).error.Json?
    ensures (session(request).Returned? && session(request).response.Http?)
            || session(request) == Threw(Net(GetJSON(session, request, decode).error))
  {
  }

  /** A server that answers 404 with a body the decoder would accept: `getJSON`
      fails with `status(404)` and the answer is the same for every decoder. */
  lemma NotFoundScenario<T>(decode: Decoder<T>, body: Bytes, v: T)
    requires decode(body) == Success(v)
    ensures
      var session: Session := (req: Requests.Request) => Returned(body, Http(HttpResponse(req.url, 404, map[])));
      GetJSON(session, Requests.FromUrl("https://example.com/items"), decode) == Failure(Status(404))
  {
  }
}

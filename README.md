# JSONLibrary: error classification and request/response decisions

A model, in Dafny, of the decision layer of the Swift package JSONLibrary. The package
wraps `URLSession` and the JSON coders. Its own logic covers four things:

- one closed error type, `NetworkError`, and the message of each case;
- validation of a transport result in `URLSession.getData(for:)`: a non-HTTP response,
  a thrown `NetworkError` and any other thrown error each map to one `NetworkError`;
- the `getJSON` / `postJSON` defaults of the `NetworkInteractor` protocol. Status 200 is
  the only success, the status is checked before decoding, and a decoding error
  becomes `json`;
- the `URLRequest.get` / `URLRequest.post` builders and the `HTTPMethod` raw values.

The network and the JSON coders are inputs. The transport is a function from a
request to an outcome (`Threw(error)` or `Returned(data, response)`). The decoder and
the encoder are functions that return a `Result`. A foreign Swift error is a
`ForeignError` value with its own `localizedDescription`.

Modules, one per source file plus three helpers:

- `NetworkErrors` (Sources/JSONLibrary/NetworkError.swift)
- `Sessions` (Sources/JSONLibrary/URLSessions.swift)
- `Interactor` (Sources/JSONLibrary/NetworkInteractor.swift)
- `Requests` (Sources/JSONLibrary/URLRequests.swift)
- helpers: `Wrappers` (Option/Result/Outcome), `FoundationTypes` (bytes, URLs), and
  `Decimal` (how Swift renders an `Int` in a string, and a parser for that text).

`NetworkError` is a datatype with exactly six constructors. Only `General` and `Json`
carry an underlying error, and only `Status` carries an integer. A Swift `Error` can be
anything, including a `NetworkError`, so the underlying error is an `AnyError`: either
`Net(NetworkError)` or `Foreign(ForeignError)`. The `localizedDescription` of a
`NetworkError` is its `errorDescription`, which is the `LocalizedError` default.

`get` and `post` build a local `var request` one step at a time, so they are methods
that update a local `Request` value field by field. Everything else is a function.

Three behaviours of the code as written, which the model keeps:

- `post` sets `Content-Type` even when encoding fails and the body is absent.
- No `Authorization` header is ever set; the builders take no token.
- `getData(for:)` rethrows any `NetworkError` that the transport itself throws. So a
  `status` or `json` error does not always mean an HTTP exchange took place: the
  transport may have thrown that very error (`Interactor.StatusOrJsonMeansExchange`).
  For the same reason, `general(x)` where `x` is a `NetworkError` can still come out,
  but only if the transport threw it in exactly that form. `getData` never adds such
  a layer itself (`Sessions.NoDoubleWrapping`).

## Model

| member | source | states |
|---|---|---|
| `NetworkErrors.ErrorDescription` | Sources/JSONLibrary/NetworkError.swift:25-40 | `errorDescription` is non-nil for every case, and the message it gives reads back to that case, its status code and its underlying error's description; since `ParseMessage` accepts one text per summary (`ParseMessageExact`), this fixes the message character by character |
| `NetworkErrors.LocalizedDescription` | Sources/JSONLibrary/NetworkError.swift:28 | The `localizedDescription` interpolated into `general`/`json` messages: for a nested `NetworkError` it is that error's `errorDescription` (the `LocalizedError` default), for a foreign error its own description |
| `NetworkErrors.ParseMessageExact` | Sources/JSONLibrary/NetworkError.swift:25-40 | A text that parses to a summary is exactly that summary's rendering: prefix, description or Swift's single decimal rendering of the code, then "." |
| `NetworkErrors.MessageIsRendering` | Sources/JSONLibrary/NetworkError.swift:25-40 | Each case's message is the rendering of its summary, and it is the only text that parses to that summary |
| `NetworkErrors.MessageRoundTrip` | Sources/JSONLibrary/NetworkError.swift:25-40 | Parsing a case's message gives back its summary: `general`/`json` are their fixed prefix, then the cause's `localizedDescription`, then "."; `status(c)` is its prefix, then the decimal `c`, then "."; the other three are fixed texts |
| `NetworkErrors.SameMessageSameSummary` | Sources/JSONLibrary/NetworkError.swift:27-38 | Two errors with equal messages are the same case, with the same status code or the same cause description; the status code can be recovered from its message |
| `NetworkErrors.FixedMessagesDistinct` | Sources/JSONLibrary/NetworkError.swift:33-38 | The messages of `dataNotValid`, `nonHTTP` and `unknown` are pairwise distinct |
| `Decimal.NatToDecimal` | Sources/JSONLibrary/NetworkError.swift:30 | The digits of the absolute value in a `\(int)` rendering: a non-empty run of decimal digits with no leading zero |
| `Decimal.IntToDecimal` | Sources/JSONLibrary/NetworkError.swift:30 | Swift's `\(int)` rendering, as `status(c)`'s message uses it: a non-empty text that starts with a minus sign exactly when the value is negative, and with a digit otherwise |
| `Decimal.ParseNatToDecimal` | Sources/JSONLibrary/NetworkError.swift:30 | Reading the digits of a rendered natural number gives that number back |
| `Decimal.ParseIntToDecimal` | Sources/JSONLibrary/NetworkError.swift:30 | Reading a rendered `Int` (with its minus sign) gives that `Int` back |
| `Decimal.NatToDecimalOfParse` | Sources/JSONLibrary/NetworkError.swift:30 | Digits with no leading zero are exactly the rendering of the number they stand for |
| `Decimal.ParsedIsRendering` | Sources/JSONLibrary/NetworkError.swift:30 | The parser accepts only Swift's own rendering of an `Int`: no leading zeros, no "-0" |
| `Decimal.IntToDecimalInjective` | Sources/JSONLibrary/NetworkError.swift:30 | Distinct status codes are rendered differently |
| `Sessions.Classify` | Sources/JSONLibrary/URLSessions.swift:29-39 | Success exactly when the transport returned an HTTP response, and then with the same data and response; a non-HTTP response gives `nonHTTP` (not `general(nonHTTP)`); a thrown `NetworkError` is rethrown unchanged; any other thrown error `e` gives `general(e)` |
| `Sessions.GetDataFor` | Sources/JSONLibrary/URLSessions.swift:29-39 | The result is `Classify`'s classification of the transport's outcome for the request: a success returns exactly what the transport returned; a failure means the transport threw, or its response was not HTTP |
| `Sessions.GetDataFrom` | Sources/JSONLibrary/URLSessions.swift:18-20 | `getData(from:)` has the classification `getData(for:)` gives the transport's outcome for `URLRequest(url:)`: success only with exactly what was returned, failure only when the transport threw or the response was not HTTP |
| `Sessions.NoDoubleWrapping` | Sources/JSONLibrary/URLSessions.swift:34-37 | A `general` whose cause is a `NetworkError` was thrown by the transport in exactly that form; `getData` never wraps one of its own errors |
| `Sessions.GeneralOnlyFromThrown` | Sources/JSONLibrary/URLSessions.swift:31-37 | `general(c)` comes out only when the transport threw, and its cause is the error thrown, unless the transport threw that very `general(c)`, which is rethrown as it is |
| `Sessions.TransportFailuresClassified` | Sources/JSONLibrary/URLSessions.swift:30-38 | Unless the transport threw a `NetworkError`, every `getData` failure is `general` or `nonHTTP` |
| `Interactor.GetJSON` | Sources/JSONLibrary/NetworkInteractor.swift:48-59 | A success is the decoded body of a status-200 HTTP response; a `getData` error propagates unchanged; a non-200 status `c` gives `status(c)`; a 200 body that fails to decode with `e` gives `json(e)` |
| `Interactor.PostJSON` | Sources/JSONLibrary/NetworkInteractor.swift:61-66 | Succeeds exactly when the transport returned an HTTP 200 response; a `getData` error propagates unchanged; a non-200 status `c` gives `status(c)` |
| `Interactor.GetJSONDecoded` | Sources/JSONLibrary/NetworkInteractor.swift:50-52 | Status 200 and a body that decodes to `v` give `v` |
| `Interactor.GetJSONDecodeFailure` | Sources/JSONLibrary/NetworkInteractor.swift:50-55 | Status 200 and a body that fails to decode with `e` give `json(e)`, never `status` or `general` |
| `Interactor.GetJSONIgnoresDecoderUnlessOk` | Sources/JSONLibrary/NetworkInteractor.swift:49-58 | Without a 200 response, `getJSON` fails, and it fails the same way for every decoder: a non-200 body is never decoded |
| `Interactor.GetJSONDecodesOnlyOkBody` | Sources/JSONLibrary/NetworkInteractor.swift:49-58 | Two decoders that agree on the 200 body give the same `getJSON` result |
| `Interactor.PostJSONIgnoresBody` | Sources/JSONLibrary/NetworkInteractor.swift:61-66 | `postJSON`'s result does not depend on the response body |
| `Interactor.SameErrorsUnlessOk` | Sources/JSONLibrary/NetworkInteractor.swift:48-66 | Without a 200 response, `getJSON` and `postJSON` fail with the same error |
| `Interactor.StatusOrJsonMeansExchange` | Sources/JSONLibrary/NetworkInteractor.swift:48-58 | A `status` or `json` error from `getJSON` means an HTTP response came back, unless the transport threw that very error |
| `Interactor.NotFoundScenario` | Sources/JSONLibrary/NetworkInteractor.swift:56-57 | A 404 answer with a body the decoder accepts gives `status(404)` |
| `Requests.Request.SetValue` | Sources/JSONLibrary/URLRequests.swift:39-40 | `setValue` inserts the field or replaces its value, keeps every other header, and changes no other field |
| `Requests.Get` | Sources/JSONLibrary/URLRequests.swift:17-23 | `get(url)`: the same URL, method "GET", timeout 60, headers exactly {Accept: application/json}, no body, no Content-Type |
| `Requests.Post` | Sources/JSONLibrary/URLRequests.swift:34-42 | `post(url, datas, method)`: the same URL, method is `method.rawValue` (default POST), timeout 60; the body is the encoding when it succeeds and absent (not thrown) when it fails; headers are exactly Content-Type: application/json; charset=utf-8 and Accept: application/json, in both cases |
| `Requests.FromUrl` | Sources/JSONLibrary/URLRequests.swift:18 | Foundation's `URLRequest(url:)`, which `get`, `post` and `getData(from:)` start from: the same URL, method GET, timeout 60, no header fields, no body |
| `Requests.HTTPMethod.RawValue` | Sources/JSONLibrary/URLRequests.swift:46-51 | Each verb's raw value (POST, PUT, DELETE, PATCH) gives the verb back through `HTTPMethod(rawValue:)` |
| `Requests.FromRawValueSound` | Sources/JSONLibrary/URLRequests.swift:46-51 | `HTTPMethod(rawValue:)` accepts only a verb's own raw value |
| `Requests.RawValueInjective` | Sources/JSONLibrary/URLRequests.swift:46-51 | Distinct verbs have distinct raw values |

## Left out

- Real networking, `async`/`await` suspension, cancellation and the timeout's effect: the transport is a function from a request to one outcome, so each request has a single fixed outcome.
- The internals of JSON encoding and decoding: the coders are functions passed in that return success or failure.
- The `localizedDescription` of foreign errors: an abstract string carried by `ForeignError`.
- `URLRequest` fields the builders do not touch (cache policy and others), and the `HTTPURLResponse` fields the library never reads (MIME type, expected length).
- Case-insensitive matching of header names in `URLRequest`: headers are a map keyed by the exact names; the builders only ever use two distinct names.
- `timeoutInterval` is a `TimeInterval` (floating point) in Swift; it is a whole number of seconds here.
- Sources/JSONLibrary/JSONLocally.swift: thin wrappers around file reading, the JSON coders and atomic writes; the atomicity is an operating-system guarantee.
- Sources/JSONLibrary/NetworkStatus.swift: path monitoring on a dispatch queue, published to the UI; concurrency and framework observation only.
- Sources/JSONLibrary/UnavailableNetwork.swift: a SwiftUI view modifier, presentation only.
- The `NetworkInteractor` protocol's `session` property: the session is passed to `GetJSON`/`PostJSON` as an argument.

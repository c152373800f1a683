/** `URLRequest` values, the `get` and `post` builders of the `URLRequest`
    extension, and the `HTTPMethod` enumeration. */
module Requests {
  import opened Wrappers
  import opened FoundationTypes
  import opened NetworkErrors

  /** Seconds before `URLRequest` gives up on a request. */
  const DefaultTimeout: nat := 60

  const AcceptField := "Accept"
  const ContentTypeField := "Content-Type"
  const JsonMediaType := "application/json"
  const JsonUtf8MediaType := "application/json; charset=utf-8"

  /** The fields of a `URLRequest` that the builders touch. */
  datatype Request = Request(
    url: Url,
    httpMethod: string,
    timeoutInterval: nat,
    headers: map<string, string>,
    httpBody: Option<Bytes>)
  {
    /** `setValue(_:forHTTPHeaderField:)` with a non-nil value: inserts the field,
        or replaces the value it already had; nothing else changes. */
    function SetValue(value: string, field: string): (r: Request)
      ensures r.headers.Keys == headers.Keys + {field}
      ensures r.headers[field] == value
      ensures forall k :: k in headers && k != field ==> r.headers[k] == headers[k]
      ensures r.url == url && r.httpMethod == httpMethod
      ensures r.timeoutInterval == timeoutInterval && r.httpBody == httpBody
    {
      this.(headers := headers[field := value])
    }
  }

  /** Foundation's `URLRequest(url:)`: method GET, the default 60-second timeout,
      no header fields and no body. */
  function FromUrl(url: Url): (r: Request)
    ensures r.url == url && r.httpMethod == "GET" && r.timeoutInterval == 60
    ensures r.headers == map[] && r.httpBody == None
  {
    Request(url, "GET", DefaultTimeout, map[], None)
  }

  /** The verbs a `post` request may use, with their raw values. */
  datatype HTTPMethod = Post | Put | Delete | Patch {
    function RawValue(): (s: string)
      ensures FromRawValue(s) == Some(this)
    {
      match this
      case Post => "POST"
      case Put => "PUT"
      case Delete => "DELETE"
      case Patch => "PATCH"
    }
  }

  /** The synthesized `HTTPMethod(rawValue:)` initializer. */
  function FromRawValue(s: string): Option<HTTPMethod> {
    if s == "POST" then Some(HTTPMethod.Post)
    else if s == "PUT" then Some(HTTPMethod.Put)
    else if s == "DELETE" then Some(HTTPMethod.Delete)
    else if s == "PATCH" then Some(HTTPMethod.Patch)
    else None
  }

  /** `HTTPMethod(rawValue:)` accepts only a verb's own raw value. */
  lemma FromRawValueSound(s: string)
    ensures FromRawValue(s).Some? ==> FromRawValue(s).value.RawValue() == s
  {
  }

  /** Distinct verbs have distinct raw values. */
  lemma RawValueInjective(a: HTTPMethod, b: HTTPMethod)
    requires a.RawValue() == b.RawValue()
    ensures a == b
  {
  }

  /** `URLRequest.get(url:)`. */
  method Get(url: Url) returns (request: Request)
    ensures request.url == url
    ensures request.httpMethod == "GET"
    ensures request.timeoutInterval == 60
    ensures request.headers == map[AcceptField := JsonMediaType]
    ensures request.httpBody == None
    ensures ContentTypeField !in request.headers
  {
    request := FromUrl(url);
    request := request.(timeoutInterval := DefaultTimeout);
    request := request.(httpMethod := "GET");
    request := request.SetValue(JsonMediaType, AcceptField);
  }

  /** `URLRequest.post(url:datas:method:)`. `encode` stands for `JSONEncoder().encode`;
      its failure is swallowed by `try?`, leaving the body absent while both header
      fields are still set. */
  method Post<T>(encode: T -> Result<Bytes, AnyError>, url: Url, datas: T, verb: HTTPMethod := HTTPMethod.Post)
    returns (request: Request)
    ensures request.url == url
    ensures request.httpMethod == verb.RawValue()
    ensures request.timeoutInterval == 60
    ensures encode(datas).Success? ==> request.httpBody == Some(encode(datas).value)
    ensures encode(datas).Failure? ==> request.httpBody == None
    ensures request.headers == map[ContentTypeField := JsonUtf8MediaType, AcceptField := JsonMediaType]
  {
    request := FromUrl(url);
    request := request.(timeoutInterval := DefaultTimeout);
    request := request.(httpMethod := verb.RawValue());
    var encoded := encode(datas);
    request := request.(httpBody := if encoded.Success? then Some(encoded.value) else None);
    request := request.SetValue(JsonUtf8MediaType, ContentTypeField);
    request := request.SetValue(JsonMediaType, AcceptField);
  }
}

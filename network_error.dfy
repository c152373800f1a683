/** The library's closed error taxonomy (`enum NetworkError`) and its
    `errorDescription` messages. */
module NetworkErrors {
  import opened Wrappers
  import opened Decimal

  /** An error from outside the library (a `URLError`, a `DecodingError`, ...);
      all the library ever reads of it is its `localizedDescription`. */
  datatype ForeignError = ForeignError(domain: string, code: int, localizedDescription: string)

  /** A Swift `Error` value: either one of the library's own errors or a foreign one. */
  datatype AnyError = Net(err: NetworkError) | Foreign(foreign: ForeignError)

  /** The six cases of `NetworkError`. Only `General` and `Json` carry an underlying
      error and only `Status` carries an integer (the HTTP status code). */
  datatype NetworkError =
    | General(cause: AnyError)
    | Status(code: int)
    | Json(cause: AnyError)
    | DataNotValid
    | NonHTTP
    | Unknown

  const GeneralPrefix := "A general error has occurred: "
  const StatusPrefix := "A status code error has occurred: "
  const JsonPrefix := "A JSON error has occurred: "
  const DataNotValidMessage := "Data not valid, an error has occurred."
  const NonHTTPMessage := "This is not a HTTP connection."
  const UnknownMessage := "Unknown error."

  /** `localizedDescription` of any error. For the library's own errors it is their
      `errorDescription` (the `LocalizedError` default); for a foreign error it is
      whatever that error reports. */
  function LocalizedDescription(a: AnyError): (r: string)
    ensures a.Net? ==> ErrorDescription(a.err) == Some(r)
    ensures a.Foreign? ==> r == a.foreign.localizedDescription
    decreases a, 3
  {
    match a
    case Net(e) => Message(e)
    case Foreign(f) => f.localizedDescription
  }

  /** The message each case's `errorDescription` switch produces. */
  function Message(e: NetworkError): string
    decreases e, 0
  {
    match e
    case General(c) => GeneralPrefix + LocalizedDescription(c) + "."
    case Status(n) => StatusPrefix + IntToDecimal(n) + "."
    case Json(c) => JsonPrefix + LocalizedDescription(c) + "."
    case DataNotValid => DataNotValidMessage
    case NonHTTP => NonHTTPMessage
    case Unknown => UnknownMessage
  }

  /** What a message reveals about the error: its case, the status code, and the
      description of the underlying error. */
  datatype Summary =
    | GeneralSummary(causeDescription: string)
    | StatusSummary(code: int)
    | JsonSummary(causeDescription: string)
    | DataNotValidSummary
    | NonHTTPSummary
    | UnknownSummary

  function Summarize(e: NetworkError): Summary
    decreases e, 0
  {
    match e
    case General(c) => GeneralSummary(LocalizedDescription(c))
    case Status(n) => StatusSummary(n)
    case Json(c) => JsonSummary(LocalizedDescription(c))
    case DataNotValid => DataNotValidSummary
    case NonHTTP => NonHTTPSummary
    case Unknown => UnknownSummary
  }

  /** `m` is `prefix`, then something, then a full stop. */
  predicate Wraps(m: string, prefix: string) {
    |m| >= |prefix| + 1 && m[..|prefix|] == prefix && m[|m| - 1] == '.'
  }

  /** The text between `prefix` and the final full stop. */
  function Inner(m: string, prefix: string): string
    requires Wraps(m, prefix)
  {
    m[|prefix|..|m| - 1]
  }

  /** The message a summary stands for. */
  function Render(s: Summary): string {
    match s
    case GeneralSummary(d) => GeneralPrefix + d + "."
    case StatusSummary(n) => StatusPrefix + IntToDecimal(n) + "."
    case JsonSummary(d) => JsonPrefix + d + "."
    case DataNotValidSummary => DataNotValidMessage
    case NonHTTPSummary => NonHTTPMessage
    case UnknownSummary => UnknownMessage
  }

  /** Reads a message back; `None` for a text no `NetworkError` describes itself with. */
  function ParseMessage(m: string): Option<Summary> {
    if Wraps(m, GeneralPrefix) then Some(GeneralSummary(Inner(m, GeneralPrefix)))
    else if Wraps(m, StatusPrefix) then
      match ParseInt(Inner(m, StatusPrefix))
      case Some(n) => Some(StatusSummary(n))
      case None => None
    else if Wraps(m, JsonPrefix) then Some(JsonSummary(Inner(m, JsonPrefix)))
    else if m == DataNotValidMessage then Some(DataNotValidSummary)
    else if m == NonHTTPMessage then Some(NonHTTPSummary)
    else if m == UnknownMessage then Some(UnknownSummary)
    else None
  }

  lemma WrapsInner(prefix: string, body: string)
    ensures Wraps(prefix + body + ".", prefix)
    ensures Inner(prefix + body + ".", prefix) == body
  {
  }

  /** A message that starts with `p` does not start with a prefix `q` that differs
      from `p` at some position. */
  lemma NotWraps(m: string, p: string, q: string, k: nat)
    requires |m| >= |p| && m[..|p|] == p
    requires k < |p| && k < |q| && p[k] != q[k]
    ensures !Wraps(m, q)
  {
  }

  /** Every message can be read back: it determines the case, the status code and
      the underlying error's description. */
  lemma {:induction false} MessageRoundTrip(e: NetworkError)
    ensures ParseMessage(Message(e)) == Some(Summarize(e))
    decreases e, 1
  {
    var m := Message(e);
    match e
    case General(c) =>
      WrapsInner(GeneralPrefix, LocalizedDescription(c));
    case Status(n) =>
      WrapsInner(StatusPrefix, IntToDecimal(n));
      NotWraps(m, StatusPrefix, GeneralPrefix, 2);
      ParseIntToDecimal(n);
    case Json(c) =>
      WrapsInner(JsonPrefix, LocalizedDescription(c));
      NotWraps(m, JsonPrefix, GeneralPrefix, 2);
      NotWraps(m, JsonPrefix, StatusPrefix, 2);
    case DataNotValid =>
      NotWraps(m, m, GeneralPrefix, 0);
      NotWraps(m, m, StatusPrefix, 0);
      NotWraps(m, m, JsonPrefix, 0);
    case NonHTTP =>
      NotWraps(m, m, GeneralPrefix, 0);
      NotWraps(m, m, StatusPrefix, 0);
      NotWraps(m, m, JsonPrefix, 0);
    case Unknown =>
      NotWraps(m, m, GeneralPrefix, 0);
      NotWraps(m, m, StatusPrefix, 0);
      NotWraps(m, m, JsonPrefix, 0);
  }

  /** `m` reassembled from its prefix, inner text and final full stop. */
  lemma WrapsSplit(m: string, prefix: string)
    requires Wraps(m, prefix)
    ensures m == prefix + Inner(m, prefix) + "."
  {
    assert m == m[..|prefix|] + m[|prefix|..|m| - 1] + [m[|m| - 1]];
  }

  /** `ParseMessage` accepts one text per summary: whatever it reads as `s` is
      exactly `Render(s)`. Together with `MessageRoundTrip` this pins each case's
      message down to the character, the status code in Swift's one rendering. */
  lemma {:induction false} ParseMessageExact(m: string, s: Summary)
    requires ParseMessage(m) == Some(s)
    ensures m == Render(s)
  {
    if Wraps(m, GeneralPrefix) {
      WrapsSplit(m, GeneralPrefix);
    } else if Wraps(m, StatusPrefix) {
      WrapsSplit(m, StatusPrefix);
      ParsedIsRendering(Inner(m, StatusPrefix), s.code);
    } else if Wraps(m, JsonPrefix) {
      WrapsSplit(m, JsonPrefix);
    }
  }

  /** The message of an error is the rendering of its summary, and no other text
      parses to that summary. */
  lemma MessageIsRendering(e: NetworkError, m: string)
    ensures Message(e) == Render(Summarize(e))
    ensures ParseMessage(m) == Some(Summarize(e)) ==> m == Message(e)
  {
    if ParseMessage(m) == Some(Summarize(e)) {
      ParseMessageExact(m, Summarize(e));
    }
  }

  /** `errorDescription`: defined for every case, and readable back by `ParseMessage`. */
  function ErrorDescription(e: NetworkError): (r: Option<string>)
    ensures r.Some?
    ensures ParseMessage(r.value) == Some(Summarize(e))
    decreases e, 2
  {
    MessageRoundTrip(e);
    Some(Message(e))
  }

  /** Two errors with the same message are the same case, with the same status code
      or the same underlying description. */
  lemma SameMessageSameSummary(e1: NetworkError, e2: NetworkError)
    requires Message(e1) == Message(e2)
    ensures Summarize(e1) == Summarize(e2)
    ensures e1.Status? <==> e2.Status?
    ensures e1.Status? ==> e1.code == e2.code
  {
    MessageRoundTrip(e1);
    MessageRoundTrip(e2);
  }

  /** The three fixed messages are pairwise distinct. */
  lemma FixedMessagesDistinct()
    ensures Message(DataNotValid) != Message(NonHTTP)
    ensures Message(DataNotValid) != Message(Unknown)
    ensures Message(NonHTTP) != Message(Unknown)
  {
  }
}

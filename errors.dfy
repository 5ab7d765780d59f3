/**
 * The library's error type (`NotionError` in src/error.rs): five variants,
 * the message each one displays, its `source`, and the conversion from a
 * transport error.
 */
module Errors {
  import opened Wrappers
  import Text
  import opened Ints

  /**
   * An error raised by the HTTP client library. Its text is produced by that
   * library; the model carries it as an opaque string.
   */
  datatype TransportError = TransportError(text: string)

  datatype NotionError =
    | HttpError(cause: TransportError)
    | RateLimited(retryAfter: Uint64)
    | Unauthorized
    | InvalidRequest(message: string)
    | ApiError(code: string, message: string)

  const HttpPrefix := "HTTP request failed: "
  const RateLimitPrefix := "Rate limit exceeded. Retry after "
  const RateLimitSuffix := " seconds"
  const UnauthorizedText := "Authentication failed"
  const InvalidRequestPrefix := "Invalid request: "
  const ApiErrorPrefix := "Notion API error "

  /** The `Display` text of an error. */
  function Display(e: NotionError): string {
    match e
    case HttpError(cause) => HttpPrefix + cause.text
    case RateLimited(n) => RateLimitPrefix + Text.NatToString(n) + RateLimitSuffix
    case Unauthorized => UnauthorizedText
    case InvalidRequest(msg) => InvalidRequestPrefix + msg
    case ApiError(code, message) => ApiErrorPrefix + code + ": " + message
  }

  /** `Error::source`: the underlying transport error, for `HttpError` only. */
  function Source(e: NotionError): (r: Option<TransportError>)
    ensures r.Some? <==> e.HttpError?
    ensures r.Some? ==> r.value == e.cause
  {
    match e
    case HttpError(cause) => Some(cause)
    case _ => None
  }

  /** `From<reqwest::Error>`: every transport error becomes an `HttpError`. */
  function FromTransport(t: TransportError): (e: NotionError)
    ensures e.HttpError? && Source(e) == Some(t)
  {
    HttpError(t)
  }

  /** The variant an error message announces, read off its fixed leading text. */
  datatype Variant = HttpVariant | RateLimitedVariant | UnauthorizedVariant | InvalidRequestVariant | ApiVariant

  function VariantOf(e: NotionError): Variant {
    match e
    case HttpError(_) => HttpVariant
    case RateLimited(_) => RateLimitedVariant
    case Unauthorized => UnauthorizedVariant
    case InvalidRequest(_) => InvalidRequestVariant
    case ApiError(_, _) => ApiVariant
  }

  /**
   * Classifies a displayed message by its leading text only, independently
   * of how it was produced.
   */
  function ClassifyMessage(s: string): Option<Variant> {
    if HttpPrefix <= s then Some(HttpVariant)
    else if RateLimitPrefix <= s then Some(RateLimitedVariant)
    else if s == UnauthorizedText then Some(UnauthorizedVariant)
    else if InvalidRequestPrefix <= s then Some(InvalidRequestVariant)
    else if ApiErrorPrefix <= s then Some(ApiVariant)
    else None
  }

  /** Every message names its own variant: the fixed texts never overlap. */
  lemma DisplayIdentifiesVariant(e: NotionError)
    ensures ClassifyMessage(Display(e)) == Some(VariantOf(e))
  {
    var s := Display(e);
    match e
    case HttpError(cause) =>
      assert s[..|HttpPrefix|] == HttpPrefix;
    case RateLimited(n) =>
      assert s[..|RateLimitPrefix|] == RateLimitPrefix;
      assert s[0] == 'R';
    case Unauthorized =>
      assert s[0] == 'A' && HttpPrefix[0] == 'H' && RateLimitPrefix[0] == 'R';
    case InvalidRequest(msg) =>
      assert s[..|InvalidRequestPrefix|] == InvalidRequestPrefix;
      assert s[0] == 'I';
    case ApiError(code, message) =>
      assert s[..|ApiErrorPrefix|] == ApiErrorPrefix;
      assert s[0] == 'N';
  }

  /** The number of seconds read back out of a rate-limit message. */
  function RetryAfterOf(s: string): Option<nat> {
    if |s| >= |RateLimitPrefix| + |RateLimitSuffix|
       && s[..|RateLimitPrefix|] == RateLimitPrefix
       && s[|s| - |RateLimitSuffix|..] == RateLimitSuffix
       && Text.AllDigits(s[|RateLimitPrefix|..|s| - |RateLimitSuffix|])
    then Some(Text.ParseNat(s[|RateLimitPrefix|..|s| - |RateLimitSuffix|]))
    else None
  }

  /** The rate-limit message carries its retry-after value in full. */
  lemma RateLimitedMessageRoundTrip(n: Uint64)
    ensures RetryAfterOf(Display(RateLimited(n))) == Some(n)
  {
    var digits := Text.NatToString(n);
    var s := Display(RateLimited(n));
    assert s == RateLimitPrefix + digits + RateLimitSuffix;
    assert s[..|RateLimitPrefix|] == RateLimitPrefix;
    assert s[|s| - |RateLimitSuffix|..] == RateLimitSuffix;
    assert s[|RateLimitPrefix|..|s| - |RateLimitSuffix|] == digits;
    Text.ParseNatToString(n);
  }

  /** The four templated messages, each as its text promises. */
  lemma DisplayTemplates(n: Uint64, msg: string, code: string, message: string)
    ensures Display(RateLimited(n)) == "Rate limit exceeded. Retry after " + Text.NatToString(n) + " seconds"
    ensures Display(Unauthorized) == "Authentication failed"
    ensures Display(InvalidRequest(msg)) == "Invalid request: " + msg
    ensures Display(ApiError(code, message)) == "Notion API error " + code + ": " + message
  {
  }
}

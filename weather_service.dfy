/** The weather service's decision logic: its error cases and their messages, the
    classification of an HTTP reply, the API-key lookup order and the guard-then-
    request-then-decode sequence shared by both endpoints. The network exchange and
    the JSON decoder are inputs. */
module WeatherServices {
  import opened Wrappers
  import opened Text

  datatype WeatherServiceError =
    | MissingAPIKey
    | InvalidURL
    | HttpError(code: int)
    | NoDataAvailable
    | SubscriptionRequired

  const MissingKeyMessage: string := "OpenWeatherMap API 키가 설정되어 있지 않습니다."
  const InvalidURLMessage: string := "잘못된 요청입니다."
  const HttpMessageHead: string := "날씨 정보를 불러오지 못했습니다. (HTTP "
  const HttpMessageTail: string := ")"
  const NoDataMessage: string := "해당 날짜의 날씨 정보가 없습니다."
  const SubscriptionMessage: string := "One Call API 3.0 구독이 필요합니다."

  /** `errorDescription`: one Korean message per case; the HTTP message carries the
      status code. Every case has a message. */
  function ErrorDescription(e: WeatherServiceError): (r: string)
    ensures e.HttpError? ==> r == HttpMessageHead + IntString(e.code) + HttpMessageTail
    ensures |r| > 0
  {
    match e
    case MissingAPIKey => MissingKeyMessage
    case InvalidURL => InvalidURLMessage
    case HttpError(code) => HttpMessageHead + IntString(code) + HttpMessageTail
    case NoDataAvailable => NoDataMessage
    case SubscriptionRequired => SubscriptionMessage
  }

  /** Reference reading of a message back into the error it reports. */
  function ErrorFromDescription(msg: string): Option<WeatherServiceError>
  {
    if msg == MissingKeyMessage then Some(MissingAPIKey)
    else if msg == InvalidURLMessage then Some(InvalidURL)
    else if msg == NoDataMessage then Some(NoDataAvailable)
    else if msg == SubscriptionMessage then Some(SubscriptionRequired)
    else if |HttpMessageHead| < |msg| && msg[..|HttpMessageHead|] == HttpMessageHead then
      Some(HttpError(ParseInt(msg[|HttpMessageHead|..|msg| - 1])))
    else None
  }

  /** Every message names its error unambiguously, the HTTP status code included. */
  lemma ErrorDescriptionRoundTrip(e: WeatherServiceError)
    ensures ErrorFromDescription(ErrorDescription(e)) == Some(e)
  {
    var msg := ErrorDescription(e);
    if e.HttpError? {
      assert msg[0] != MissingKeyMessage[0] && msg[0] != InvalidURLMessage[0];
      assert msg[0] != NoDataMessage[0] && msg[0] != SubscriptionMessage[0];
      assert msg[..|HttpMessageHead|] == HttpMessageHead;
      assert msg[|HttpMessageHead|..|msg| - 1] == IntString(e.code);
      IntStringRoundTrip(e.code);
    } else if e.SubscriptionRequired? {
      assert msg[1] != MissingKeyMessage[1];
    }
  }

  /** Different errors are never reported with the same message. */
  lemma ErrorDescriptionInjective(a: WeatherServiceError, b: WeatherServiceError)
    requires ErrorDescription(a) == ErrorDescription(b)
    ensures a == b
  {
    ErrorDescriptionRoundTrip(a);
    ErrorDescriptionRoundTrip(b);
  }

  /** Any error a fetch can raise: one of the service's own, or one raised by the
      networking or decoding layer, known only by its localized description. */
  datatype FetchError = ServiceError(error: WeatherServiceError) | OtherError(description: string)

  /** `error.localizedDescription`. */
  function LocalizedDescription(e: FetchError): (r: string)
    ensures e.ServiceError? ==> r == ErrorDescription(e.error)
    ensures e.OtherError? ==> r == e.description
  {
    match e
    case ServiceError(err) => ErrorDescription(err)
    case OtherError(d) => d
  }

  /** What came back from the server. `statusCode` is None when the reply is not an
      HTTP reply; `bodyText` is None when the body is not valid UTF-8. */
  datatype HttpReply = HttpReply(statusCode: Option<int>, bodyText: Option<string>)

  const InvalidKeyMarker: string := "Invalid API key"

  /** The status check both fetches apply: None lets a 2xx reply through to decoding;
      a 401 is a rejected key when the body says so and a missing subscription
      otherwise; anything else is an HTTP error with the code, or -1 for a reply that
      is not HTTP. */
  function StatusError(reply: HttpReply): (r: Option<WeatherServiceError>)
    ensures r.None? <==> reply.statusCode.Some? && 200 <= reply.statusCode.value < 300
    ensures reply.statusCode == Some(401) ==>
      r == Some(if reply.bodyText.Some? && Contains(reply.bodyText.value, InvalidKeyMarker)
                then MissingAPIKey else SubscriptionRequired)
    ensures reply.statusCode.None? ==> r == Some(HttpError(-1))
    ensures reply.statusCode.Some? && reply.statusCode.value != 401 && r.Some? ==>
      r == Some(HttpError(reply.statusCode.value))
  {
    if reply.statusCode.Some? && 200 <= reply.statusCode.value < 300 then
      None
    else
      var status := if reply.statusCode.Some? then reply.statusCode.value else -1;
      if status == 401 then
        if reply.bodyText.Some? && Contains(reply.bodyText.value, InvalidKeyMarker) then
          Some(MissingAPIKey)
        else
          Some(SubscriptionRequired)
      else
        Some(HttpError(status))
  }

  /** The status check never reports a success code, a 401, a bad URL or missing data
      as an HTTP error, and names the key only for a 401 that mentions it. */
  lemma StatusErrorKinds(reply: HttpReply)
    ensures StatusError(reply) != Some(InvalidURL) && StatusError(reply) != Some(NoDataAvailable)
    ensures StatusError(reply) == Some(MissingAPIKey) ==>
      reply.statusCode == Some(401) && reply.bodyText.Some? && Contains(reply.bodyText.value, InvalidKeyMarker)
    ensures StatusError(reply).Some? && StatusError(reply).value.HttpError? ==>
      var c := StatusError(reply).value.code;
      c != 401 && !(200 <= c < 300) && (c == -1 <==> reply.statusCode.None? || reply.statusCode == Some(-1))
  {
  }

  /** The configured service: only its resolved key matters here. */
  datatype WeatherService = WeatherService(apiKey: string)

  predicate NonEmpty(s: Option<string>)
  {
    s.Some? && s.value != []
  }

  /** `resolveAPIKey`: the explicit override, then the Info.plist entry, then the
      environment variable, each only when present and non-empty; else "". */
  function ResolveAPIKey(override: Option<string>, infoKey: Option<string>, envKey: Option<string>): (r: string)
    ensures r != [] <==> NonEmpty(override) || NonEmpty(infoKey) || NonEmpty(envKey)
    ensures NonEmpty(override) ==> r == override.value
    ensures !NonEmpty(override) && NonEmpty(infoKey) ==> r == infoKey.value
    ensures !NonEmpty(override) && !NonEmpty(infoKey) && NonEmpty(envKey) ==> r == envKey.value
  {
    if NonEmpty(override) then override.value
    else if NonEmpty(infoKey) then infoKey.value
    else if NonEmpty(envKey) then envKey.value
    else ""
  }

  /** Reference definition: the first non-empty candidate of a list, or "". */
  function FirstNonEmpty(candidates: seq<Option<string>>): string
  {
    if candidates == [] then ""
    else if NonEmpty(candidates[0]) then candidates[0].value
    else FirstNonEmpty(candidates[1..])
  }

  /** The lookup order is exactly "first non-empty of override, Info.plist,
      environment". */
  lemma ResolveAPIKeyIsFirstNonEmpty(override: Option<string>, infoKey: Option<string>, envKey: Option<string>)
    ensures ResolveAPIKey(override, infoKey, envKey) == FirstNonEmpty([override, infoKey, envKey])
  {
    var c := [override, infoKey, envKey];
    assert c[1..] == [infoKey, envKey] && c[2..] == [envKey] && c[1..][1..] == c[2..] && c[2..][1..] == [];
    assert FirstNonEmpty(c[2..]) == if NonEmpty(envKey) then envKey.value else "";
    assert FirstNonEmpty(c[1..]) == if NonEmpty(infoKey) then infoKey.value else FirstNonEmpty(c[2..]);
  }

  /** `init(session:decoder:apiKey:)` as far as the key goes. */
  function MakeWeatherService(override: Option<string>, infoKey: Option<string>, envKey: Option<string>): (s: WeatherService)
    ensures s.apiKey == FirstNonEmpty([override, infoKey, envKey])
  {
    ResolveAPIKeyIsFirstNonEmpty(override, infoKey, envKey);
    WeatherService(ResolveAPIKey(override, infoKey, envKey))
  }

  /** `fetchOneCall` and `fetchHistoricalWeather` (for `T` their response type): an
      empty key fails before any request; an error of the transfer itself passes
      through; a reply is checked by `StatusError`; a reply that passes is decoded,
      and a decoding error passes through. `exchange` is what the request would bring
      back, `decoded` what the decoder makes of that body. */
  function Fetch<T>(service: WeatherService, exchange: Result<HttpReply, string>, decoded: Result<T, string>): (r: Result<T, FetchError>)
    ensures service.apiKey == [] ==> r == Failure(ServiceError(MissingAPIKey))
    ensures service.apiKey != [] && exchange.Failure? ==> r == Failure(OtherError(exchange.error))
    ensures service.apiKey != [] && exchange.Success? && StatusError(exchange.value).Some? ==>
      r == Failure(ServiceError(StatusError(exchange.value).value))
    ensures service.apiKey != [] && exchange.Success? && StatusError(exchange.value).None? && decoded.Failure? ==>
      r == Failure(OtherError(decoded.error))
    ensures r.Success? <==>
      service.apiKey != [] && exchange.Success? && StatusError(exchange.value).None? && decoded.Success?
    ensures r.Success? ==> r.value == decoded.value
  {
    if service.apiKey == [] then Failure(ServiceError(MissingAPIKey))
    else if exchange.Failure? then Failure(OtherError(exchange.error))
    else
      var status := StatusError(exchange.value);
      if status.Some? then Failure(ServiceError(status.value))
      else if decoded.Failure? then Failure(OtherError(decoded.error))
      else Success(decoded.value)
  }

  /** With an empty key the outcome depends on nothing the network or the decoder
      could produce: no request is made. */
  lemma EmptyKeyMakesNoRequest<T>(exchange1: Result<HttpReply, string>, exchange2: Result<HttpReply, string>,
                                  decoded1: Result<T, string>, decoded2: Result<T, string>)
    ensures Fetch(WeatherService(""), exchange1, decoded1) == Fetch(WeatherService(""), exchange2, decoded2)
  {
  }
}

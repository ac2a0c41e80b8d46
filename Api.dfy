/** The token backend's HTTP surface (Sources/VoiceSDK/Internal/Auth/Api.swift): how the base
    URL is normalised, which requests are sent, and how a reply becomes a decoded response or
    an error. The reply itself comes from the network and is a parameter here. */
module Api {
  import opened Wrappers
  import Text
  import opened Errors

  datatype NetworkConfiguration = NetworkConfiguration(baseUrl: string, deviceId: string, userAgent: string, clientToken: string)

  /** The body of the identity exchange (Sources/VoiceSDK/Internal/Auth/TokenRequest.swift). */
  datatype Identity = Identity(iss: string, sub: string, name: string)
  datatype TokenRequest = TokenRequest(
    scope: seq<string>, grantType: string, appToken: string,
    responseType: seq<string>, identity: Identity, code: string)

  /** The decoded reply (Sources/VoiceSDK/Internal/Auth/AccessTokenResponse.swift). */
  datatype CallInfo = CallInfo(userId: string, proxy: string, realm: string, secret: Option<string>)
  datatype AccessTokenResponse = AccessTokenResponse(accessToken: Option<string>, call: Option<CallInfo>)

  datatype Header = Header(name: string, value: string)

  /** An HTTP request as `makeRequest` and its callers assemble it; headers in the order added. */
  datatype Request = Request(httpMethod: string, url: string, headers: seq<Header>, body: Option<TokenRequest>)

  /** What the network gives back for a request: either the loading system fails, or a response
      arrives, with its HTTP status when it is an HTTP response, its body when that is UTF-8 text,
      and the outcome of decoding the body (a decoder error is known by its description). */
  datatype HttpReply =
    | TransportError(description: string)
    | Received(statusCode: Option<int>, bodyText: Option<string>, decoded: Result<AccessTokenResponse, string>)

  const LoginPath := "/api/portal/token"
  const Http := "http://"
  const Https := "https://"
  const AccessHeader := "X-Webitel-Access"

  predicate HasHttpScheme(url: string)
  {
    Text.StartsWithIgnoringCase(url, Http) || Text.StartsWithIgnoringCase(url, Https)
  }

  /** `normalizeBaseUrl`: an address with an HTTP(S) scheme, in any letter case, is kept; any
      other address gets `https://` in front. */
  function NormalizeBaseUrl(baseUrl: string): (r: string)
    ensures HasHttpScheme(baseUrl) ==> r == baseUrl
    ensures !HasHttpScheme(baseUrl) ==> r == Https + baseUrl
  {
    if HasHttpScheme(baseUrl) then baseUrl else Https + baseUrl
  }

  /** Every normalised address carries a scheme. */
  lemma NormalizedHasScheme(baseUrl: string)
    ensures HasHttpScheme(NormalizeBaseUrl(baseUrl))
  {
    if !HasHttpScheme(baseUrl) {
      Text.ExactPrefixIgnoringCase(Https + baseUrl, Https);
    }
  }

  /** Normalising twice is normalising once. */
  lemma NormalizeIdempotent(baseUrl: string)
    ensures NormalizeBaseUrl(NormalizeBaseUrl(baseUrl)) == NormalizeBaseUrl(baseUrl)
  {
    NormalizedHasScheme(baseUrl);
  }

  /** `buildURL`: the normalised base followed by the path. */
  function BuildUrl(net: NetworkConfiguration, path: string): string
  {
    NormalizeBaseUrl(net.baseUrl) + path
  }

  /** `makeRequest`: the headers every request carries. */
  function CommonHeaders(net: NetworkConfiguration): seq<Header>
  {
    [Header("Content-Type", "application/json"), Header("x-portal-device", net.deviceId),
     Header("x-portal-client", net.clientToken), Header("User-Agent", net.userAgent)]
  }

  function MakeRequest(url: string, httpMethod: string, net: NetworkConfiguration): Request
  {
    Request(httpMethod, url, CommonHeaders(net), None)
  }

  /** `getSipConfig(jwt:)`: a GET carrying the token in the access header. */
  function SipConfigRequest(net: NetworkConfiguration, jwt: string): Request
  {
    var base := MakeRequest(BuildUrl(net, LoginPath), "GET", net);
    base.(headers := base.headers + [Header(AccessHeader, jwt)])
  }

  /** `login(_:)`: a POST carrying the encoded token request. */
  function LoginRequest(net: NetworkConfiguration, body: TokenRequest): Request
  {
    MakeRequest(BuildUrl(net, LoginPath), "POST", net).(body := Some(body))
  }

  /** The value of the first header with the given name. */
  function HeaderValue(headers: seq<Header>, name: string): Option<string>
  {
    if headers == [] then None
    else if headers[0].name == name then Some(headers[0].value)
    else HeaderValue(headers[1..], name)
  }

  /** Both requests go to the token path of the normalised base and carry the four common
      headers; only the token request is a GET and only it carries the access header. */
  lemma RequestShapes(net: NetworkConfiguration, jwt: string, body: TokenRequest)
    ensures var get, post := SipConfigRequest(net, jwt), LoginRequest(net, body);
      get.url == post.url == NormalizeBaseUrl(net.baseUrl) + LoginPath
      && get.httpMethod == "GET" && post.httpMethod == "POST"
      && get.headers[..4] == post.headers == CommonHeaders(net)
      && HeaderValue(get.headers, AccessHeader) == Some(jwt)
      && HeaderValue(post.headers, AccessHeader) == None
      && get.body == None && post.body == Some(body)
  {
    var get, post := SipConfigRequest(net, jwt), LoginRequest(net, body);
    assert get.headers[4..] == [Header(AccessHeader, jwt)];
    CommonHeadersLackAccess(net, get.headers);
    CommonHeadersLackAccess(net, post.headers);
  }

  /** The common headers never include the access header, so a lookup passes over them. */
  lemma CommonHeadersLackAccess(net: NetworkConfiguration, headers: seq<Header>)
    requires |headers| >= 4 && headers[..4] == CommonHeaders(net)
    ensures HeaderValue(headers, AccessHeader) == HeaderValue(headers[4..], AccessHeader)
  {
    // Each common header name differs from the access header in its first character.
    var k := 0;
    while k < 4
      invariant 0 <= k <= 4
      invariant HeaderValue(headers, AccessHeader) == HeaderValue(headers[k..], AccessHeader)
    {
      assert headers[k] == CommonHeaders(net)[k];
      assert headers[k].name[0] != AccessHeader[0];
      assert headers[k..][1..] == headers[k + 1..];
      k := k + 1;
    }
  }

  /** `handleResponseError`: 401 is an authorisation failure; any other status is an unknown
      remote error carrying that status. The message is the body, or "Unknown error". */
  function HandleResponseError(statusCode: int, bodyText: Option<string>): (e: CallError)
    ensures e.Unauthorized? <==> statusCode == 401
    ensures statusCode != 401 ==> e.Unknown? && e.code == statusCode
    ensures bodyText.Some? ==> e.message == bodyText.value
    ensures bodyText.None? ==> e.message == "Unknown error"
  {
    var message := if bodyText.Some? then bodyText.value else "Unknown error";
    if statusCode == 401 then Unauthorized(message) else Unknown(message, statusCode)
  }

  /** `handleError`: a decoding failure becomes an unknown error with code -1. */
  function HandleError(description: string): (e: CallError)
    ensures e.Unknown? && e.code == -1 && e.message == description
  {
    Unknown(description, -1)
  }

  /** `send`: the reply to a request, as the decoded response or the error it throws. */
  function Send(reply: HttpReply): (r: Result<AccessTokenResponse, AnyError>)
    ensures r.Success? <==>
      reply.Received? && (reply.statusCode.None? || reply.statusCode.value == 200) && reply.decoded.Success?
    ensures r.Success? ==> r.value == reply.decoded.value
    ensures reply.TransportError? ==> r == Failure(PlatformError(reply.description))
    ensures reply.Received? && reply.statusCode.Some? && reply.statusCode.value != 200 ==>
      r == Failure(SdkError(HandleResponseError(reply.statusCode.value, reply.bodyText)))
  {
    match reply
    case TransportError(d) => Failure(PlatformError(d))
    case Received(status, bodyText, decoded) =>
      if status.Some? && status.value != 200 then Failure(SdkError(HandleResponseError(status.value, bodyText)))
      else match decoded
        case Success(response) => Success(response)
        case Failure(d) => Failure(SdkError(HandleError(d)))
  }

  /** The error kinds a reply can produce. */
  lemma SendErrors(status: int, bodyText: Option<string>, decoded: Result<AccessTokenResponse, string>)
    ensures status == 401 ==> Send(Received(Some(status), bodyText, decoded)).error == SdkError(Unauthorized(HandleResponseError(status, bodyText).message))
    ensures status != 200 && status != 401 ==>
      var e := Send(Received(Some(status), bodyText, decoded)).error;
      e.SdkError? && e.error.Unknown? && e.error.code == status
    ensures decoded.Failure? && (status == 200) ==>
      Send(Received(Some(status), bodyText, decoded)) == Failure(SdkError(Unknown(decoded.error, -1)))
  {
  }
}

/** Credential resolution (Sources/VoiceSDK/Internal/Auth/AuthManager.swift): the stored user
    and token, the choice between the identity exchange and the token fetch, and the mapping
    of the backend's reply to connection parameters. */
module Auth {
  import opened Wrappers
  import opened Errors
  import opened Api
  import opened SipConfigs

  /** Sources/VoiceSDK/Public/User.swift: the fields the identity exchange sends. */
  datatype User = User(iss: string, sub: string, name: string)

  /** The two ways of obtaining connection parameters. */
  datatype CredentialMode = IdentityMode(user: User) | TokenMode(jwt: string)

  /** `getSipConfig`'s dispatch: a user, when set, wins over any token; a token is used only
      when it is non-empty; with neither the call is unauthorised. */
  function ChooseMode(user: Option<User>, jwt: string): (r: Result<CredentialMode, CallError>)
    ensures user.Some? ==> r == Success(IdentityMode(user.value))
    ensures user.None? && jwt != [] ==> r == Success(TokenMode(jwt))
    ensures user.None? && jwt == [] ==> r.Failure? && r.error.Unauthorized?
  {
    if user.Some? then Success(IdentityMode(user.value))
    else if jwt != [] then Success(TokenMode(jwt))
    else Failure(Unauthorized("User or JWT not set"))
  }

  /** The body of the identity exchange that `fetchSipConfigWithUser` sends. */
  function IdentityRequest(user: User, clientToken: string): (t: TokenRequest)
    ensures t.scope == ["call"] && t.grantType == "identity" && t.responseType == ["call", "token"]
    ensures t.code == "authorization_code" && t.appToken == clientToken
    ensures t.identity == Identity(user.iss, user.sub, user.name)
  {
    TokenRequest(["call"], "identity", clientToken, ["call", "token"],
      Identity(user.iss, user.sub, user.name), "authorization_code")
  }

  /** The request each mode sends. */
  function RequestFor(mode: CredentialMode, net: NetworkConfiguration): Request
  {
    match mode
    case IdentityMode(user) => LoginRequest(net, IdentityRequest(user, net.clientToken))
    case TokenMode(jwt) => SipConfigRequest(net, jwt)
  }

  /** The request `getSipConfig` puts on the wire for the stored credentials, if any. */
  function RequestSent(user: Option<User>, jwt: string, net: NetworkConfiguration): (sent: Option<Request>)
    ensures sent.None? <==> ChooseMode(user, jwt).Failure?
  {
    match ChooseMode(user, jwt)
    case Failure(_) => None
    case Success(mode) => Some(RequestFor(mode, net))
  }

  /** The SIP password: the explicit secret when it is non-empty, otherwise the access token,
      otherwise the empty string. */
  function PasswordFor(call: CallInfo, accessToken: Option<string>): (p: string)
    ensures call.secret.Some? && call.secret.value != [] ==> p == call.secret.value
    ensures (call.secret.None? || call.secret.value == []) && accessToken.Some? ==> p == accessToken.value
    ensures (call.secret.None? || call.secret.value == []) && accessToken.None? ==> p == ""
  {
    if call.secret.Some? && call.secret.value != [] then call.secret.value
    else if accessToken.Some? then accessToken.value
    else ""
  }

  /** `processSipResponse`: a reply without a call payload is invalid; otherwise the device id
      authenticates, the realm is the domain, the user id the extension, and the proxy is
      passed through. */
  function ProcessSipResponse(response: AccessTokenResponse, deviceId: string): (r: Result<SipConfig, CallError>)
    ensures response.call.None? <==> r.Failure?
    ensures r.Failure? ==> r.error.InvalidResponse?
    ensures r.Success? ==>
              && r.value.auth == deviceId && r.value.domain == response.call.value.realm
              && r.value.extension == response.call.value.userId && r.value.proxy == response.call.value.proxy
              && r.value.password == PasswordFor(response.call.value, response.accessToken)
  {
    match response.call
    case None => Failure(InvalidResponse("Sip Config not found in response"))
    case Some(call) =>
      Success(SipConfig(deviceId, call.realm, call.userId, PasswordFor(call, response.accessToken), call.proxy))
  }

  /** What `getSipConfig` yields for the stored credentials and the network's reply: the
      dispatch error, the reply's error, or the processed response. */
  function FetchSipConfig(user: Option<User>, jwt: string, net: NetworkConfiguration, reply: HttpReply)
    : (r: Result<SipConfig, AnyError>)
    ensures r.Success? <==> ChooseMode(user, jwt).Success? && Send(reply).Success? && Send(reply).value.call.Some?
    ensures r.Success? ==> r.value == ProcessSipResponse(Send(reply).value, net.deviceId).value
  {
    match ChooseMode(user, jwt)
    case Failure(e) => Failure(SdkError(e))
    case Success(_) =>
      match Send(reply)
      case Failure(e) => Failure(e)
      case Success(response) =>
        match ProcessSipResponse(response, net.deviceId)
        case Failure(e) => Failure(SdkError(e))
        case Success(config) => Success(config)
  }

  /** A missing or empty secret falls back to the access token, whatever the token is, and to
      the empty password when there is no token either. */
  lemma EmptySecretUsesAccessToken(userId: string, proxy: string, realm: string, deviceId: string,
                                   secret: Option<string>, accessToken: Option<string>)
    requires secret.None? || secret.value == []
    ensures var response := AccessTokenResponse(accessToken, Some(CallInfo(userId, proxy, realm, secret)));
      ProcessSipResponse(response, deviceId)
        == Success(SipConfig(deviceId, realm, userId, if accessToken.Some? then accessToken.value else "", proxy))
  {
  }

  class AuthManager {
    const networkConfiguration: NetworkConfiguration
    var jwt: string
    var user: Option<User>

    constructor (networkConfiguration: NetworkConfiguration)
      ensures this.networkConfiguration == networkConfiguration
      ensures jwt == "" && user == None
    {
      this.networkConfiguration := networkConfiguration;
      jwt := "";
      user := None;
    }

    method SetUser(user: User)
      modifies this
      ensures this.user == Some(user) && jwt == old(jwt)
    {
      this.user := Some(user);
    }

    method SetJWT(jwt: string)
      modifies this
      ensures this.jwt == jwt && user == old(user)
    {
      this.jwt := jwt;
    }

    /** `getSipConfig`: chooses the mode, sends its request and maps the reply, which the
        network supplies. `sent` is the request put on the wire, if any. */
    method GetSipConfig(reply: HttpReply) returns (sent: Option<Request>, r: Result<SipConfig, AnyError>)
      ensures sent == RequestSent(user, jwt, networkConfiguration)
      ensures r == FetchSipConfig(user, jwt, networkConfiguration, reply)
      ensures ChooseMode(user, jwt).Failure? ==> sent == None && r == Failure(SdkError(ChooseMode(user, jwt).error))
      ensures user.None? && jwt == [] ==> sent == None && r.Failure? && r.error.SdkError? && r.error.error.Unauthorized?
      ensures user.Some? ==> sent == Some(LoginRequest(networkConfiguration, IdentityRequest(user.value, networkConfiguration.clientToken)))
      ensures user.None? && jwt != [] ==> sent == Some(SipConfigRequest(networkConfiguration, jwt))
      ensures r.Success? <==> sent.Some? && Send(reply).Success? && Send(reply).value.call.Some?
      ensures r.Success? ==>
                && r.value.auth == networkConfiguration.deviceId
                && r.value.proxy == Send(reply).value.call.value.proxy
      ensures sent.Some? && Send(reply).Failure? ==> r == Failure(Send(reply).error)
      ensures sent.Some? && Send(reply).Success? ==>
                var processed := ProcessSipResponse(Send(reply).value, networkConfiguration.deviceId);
                && (processed.Success? ==> r == Success(processed.value))
                && (processed.Failure? ==> r == Failure(SdkError(processed.error)))
      ensures sent.Some? && Send(reply).Success? && Send(reply).value.call.None? ==>
                r.Failure? && r.error.SdkError? && r.error.error.InvalidResponse?
    {
      match ChooseMode(user, jwt)
      case Failure(e) =>
        sent, r := None, Failure(SdkError(e));
      case Success(mode) =>
        sent := Some(RequestFor(mode, networkConfiguration));
        match Send(reply)
        case Failure(e) =>
          r := Failure(e);
        case Success(response) =>
          match ProcessSipResponse(response, networkConfiguration.deviceId)
          case Failure(e) => r := Failure(SdkError(e));
          case Success(config) => r := Success(config);
    }
  }
}

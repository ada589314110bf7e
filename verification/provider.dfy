/** The two outbound calls of the authorization-code grant (the token
    exchange of `get_token` and the profile fetch of `get_user`), as the
    request each one sends and the classification of the response it gets.
    The HTTP transport itself is not part of the model. */
module Provider {
  import opened Runtime
  import opened Json
  import opened Errors
  import opened Config

  /** A provider response: the status code and the body, `None` when the
      body is not JSON. */
  datatype Response = Response(status: int, body: Option<Json>)

  /** `r.json()`: raises ValueError when the body is not JSON. */
  function BodyJson(resp: Response): (r: Result<Json, Exception>)
    ensures r.Success? <==> resp.body.Some?
    ensures r.Success? ==> r.value == resp.body.value
    ensures r.Failure? ==> r.error == ValueError
  {
    match resp.body
    case None => Failure(ValueError)
    case Some(j) => Success(j)
  }

  /** The token-exchange POST: to the token URL, with HTTP Basic credentials
      (`config.get`, so None when unset) and the form fields `grant_type`,
      `code` and `redirect_uri`. */
  datatype TokenRequest = TokenRequest(
    url: string,
    clientId: Value,
    clientSecret: Value,
    grantType: string,
    code: string,
    redirectUri: string)

  /** The request `get_token(code)` sends from a request whose base URL is
      `baseUrl`; building it fails only when the token URL cannot be built. */
  function TokenRequestFor(c: Config, code: string, baseUrl: string): (r: Result<TokenRequest, Exception>)
    ensures r.Success? <==> TokenUrl(c).Success?
    ensures r.Failure? ==> r.error == TokenUrl(c).error
    ensures r.Success? ==>
      && r.value.url == TokenUrl(c).value
      && r.value.grantType == "authorization_code"
      && r.value.code == code
      && r.value.redirectUri == baseUrl
      && r.value.clientId == Get(c, "URS_UID")
      && r.value.clientSecret == Get(c, "URS_PASSWORD")
  {
    var url :- TokenUrl(c);
    Success(TokenRequest(url, Get(c, "URS_UID"), Get(c, "URS_PASSWORD"), "authorization_code", code, baseUrl))
  }

  const TokenAccessDenied := URSError(JStr("Token Access Denied"), JStr("Incorrect Application UID or Password"), 500, None)
  const UnknownError := URSError(JStr("Unknown Error"), JStr("Could Not Retrieve Access Token"), 500, None)
  const InvalidCode := URSError(JStr("Invalid Code"), JStr("No Authorization Code"), 400, None)

  /** How `get_token` treats the exchange response: 401 is a credential
      rejection; 400 passes the provider's own `error` and
      `error_description` through (reading them may itself raise); any other
      status but 200 is an unknown error; all three at status 500. Only a 200
      with a JSON body yields the grant, which is that body. */
  function ClassifyToken(resp: Response): (r: Result<Json, Fault>)
    ensures r.Success? <==> resp.status == 200 && resp.body.Some?
    ensures r.Success? ==> r.value == resp.body.value
    ensures resp.status == 401 ==> r == Failure(Urs(TokenAccessDenied))
    ensures resp.status != 200 && resp.status != 400 && resp.status != 401 ==> r == Failure(Urs(UnknownError))
    ensures r.Failure? && r.error.Urs? ==> r.error.urs.status == 500
  {
    if resp.status == 401 then Failure(Urs(TokenAccessDenied))
    else if resp.status == 400 then
      match BodyJson(resp)
      case Failure(e) => Failure(Crash(e))
      case Success(body) =>
        match Subscript(body, "error")
        case Failure(e) => Failure(Crash(e))
        case Success(error) =>
          match Subscript(body, "error_description")
          case Failure(e) => Failure(Crash(e))
          case Success(description) => Failure(Urs(URSError(error, description, 500, None)))
    else if resp.status != 200 then Failure(Urs(UnknownError))
    else
      match BodyJson(resp)
      case Failure(e) => Failure(Crash(e))
      case Success(grant) => Success(grant)
  }

  /** A 400 answer in the shape of an OAuth2 error response (section 5.2 of
      RFC 6749) reaches the application with the provider's own code and
      description, at status 500; without that shape, reading it raises,
      even for an error response that omits the optional description. */
  lemma ProviderErrorPassedThrough(resp: Response)
    requires resp.status == 400
    ensures resp.body.Some? && resp.body.value.JObj?
            && "error" in resp.body.value.fields && "error_description" in resp.body.value.fields
        ==> ClassifyToken(resp) == Failure(Urs(URSError(resp.body.value.fields["error"],
                                                        resp.body.value.fields["error_description"], 500, None)))
    ensures resp.body.None? ==> ClassifyToken(resp) == Failure(Crash(ValueError))
    ensures resp.body.Some? && resp.body.value.JObj? && "error" !in resp.body.value.fields
        ==> ClassifyToken(resp) == Failure(Crash(KeyError("error")))
    ensures resp.body.Some? && resp.body.value.JObj?
            && "error" in resp.body.value.fields && "error_description" !in resp.body.value.fields
        ==> ClassifyToken(resp) == Failure(Crash(KeyError("error_description")))
    ensures resp.body.Some? && !resp.body.value.JObj? ==> ClassifyToken(resp) == Failure(Crash(TypeError))
  {
  }

  /** The profile GET: to provider host + endpoint, with the access token as
      bearer credential. */
  datatype ProfileRequest = ProfileRequest(url: string, accessToken: Json)

  /** The request `get_user(token, endpoint)` sends. The host is read with
      `config.get` and no fallback, and `+` needs two strings, so a missing
      host or a non-string endpoint raises TypeError. */
  function ProfileRequestFor(c: Config, token: Json, endpoint: Json): (r: Result<ProfileRequest, Exception>)
    ensures r.Success? <==> Get(c, "URS_HOST").Str? && endpoint.JStr?
    ensures r.Success? ==> r.value == ProfileRequest(Get(c, "URS_HOST").s + endpoint.s, token)
    ensures r.Failure? ==> r.error == TypeError
  {
    var host := Get(c, "URS_HOST");
    if host.Str? && endpoint.JStr? then Success(ProfileRequest(host.s + endpoint.s, token))
    else Failure(TypeError)
  }

  /** How `get_user` treats the profile response: anything but 200 is
      refused as an invalid code with status 400; a 200 yields its JSON
      body. */
  function ClassifyProfile(resp: Response): (r: Result<Json, Fault>)
    ensures r.Success? <==> resp.status == 200 && resp.body.Some?
    ensures r.Success? ==> r.value == resp.body.value
    ensures resp.status != 200 ==> r == Failure(Urs(InvalidCode))
    ensures resp.status == 200 && resp.body.None? ==> r == Failure(Crash(ValueError))
  {
    if resp.status != 200 then Failure(Urs(InvalidCode))
    else
      match BodyJson(resp)
      case Failure(e) => Failure(Crash(e))
      case Success(profile) => Success(profile)
  }
}

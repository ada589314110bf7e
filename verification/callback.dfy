/** The callback view: the provider redirects the browser back with an
    authorization code, and the extension exchanges it, fetches the profile,
    builds and signs the token payload, and hands the token to the response
    hook. The provider calls and the hooks are parameters; the run records
    every call it makes, in order. */
module Callback {
  import opened Runtime
  import opened Json
  import opened Errors
  import opened Config
  import opened Provider

  /** One call the callback makes. */
  datatype Step =
    | PostToken(tokenRequest: TokenRequest)      // the token exchange
    | GetProfile(profileRequest: ProfileRequest) // the profile fetch
    | MakePayload                                // the payload hook
    | Encode                                     // the encode hook
    | Respond(jwt: string)                       // the response hook

  /** The calls made, and how the view ended. */
  datatype Run<R> = Run(trace: seq<Step>, outcome: Result<R, Fault>)

  /** `callback()`. A missing `code` raises a bare Exception before anything
      is called. Otherwise the steps run strictly in order and the first
      failure ends the run: the exchange, the grant's `access_token` and
      `endpoint`, the profile fetch, the payload hook, the encode hook, and
      finally the response hook, whose result is returned untouched. */
  function HandleCallback<P, R>(c: Config, code: Option<string>, baseUrl: string,
                                post: TokenRequest -> Response, get: ProfileRequest -> Response,
                                payloadHook: Json -> P, encode: P -> Result<string, Exception>,
                                respond: (string, Json) -> R): (run: Run<R>)
    ensures code.None? ==> run == Run([], Failure(Crash(BareException)))
    ensures |run.trace| <= 5
    ensures |run.trace| >= 1 ==> run.trace[0].PostToken?
    ensures |run.trace| >= 2 ==>
      && ClassifyToken(post(run.trace[0].tokenRequest)).Success?
      && run.trace[1].GetProfile?
    ensures |run.trace| >= 3 ==>
      && |run.trace| >= 4
      && ClassifyProfile(get(run.trace[1].profileRequest)).Success?
      && run.trace[2] == MakePayload && run.trace[3] == Encode
    ensures run.outcome.Success? ==> |run.trace| == 5 && run.trace[4].Respond?
  {
    if code.None? then Run([], Failure(Crash(BareException)))
    else
      match TokenRequestFor(c, code.value, baseUrl)
      case Failure(e) => Run([], Failure(Crash(e)))
      case Success(tokenRequest) =>
        var exchanged := [PostToken(tokenRequest)];
        match ClassifyToken(post(tokenRequest))
        case Failure(f) => Run(exchanged, Failure(f))
        case Success(grant) =>
          match Subscript(grant, "access_token")
          case Failure(e) => Run(exchanged, Failure(Crash(e)))
          case Success(accessToken) =>
            match Subscript(grant, "endpoint")
            case Failure(e) => Run(exchanged, Failure(Crash(e)))
            case Success(endpoint) =>
              match ProfileRequestFor(c, accessToken, endpoint)
              case Failure(e) => Run(exchanged, Failure(Crash(e)))
              case Success(profileRequest) =>
                var fetched := exchanged + [GetProfile(profileRequest)];
                match ClassifyProfile(get(profileRequest))
                case Failure(f) => Run(fetched, Failure(f))
                case Success(profile) =>
                  var payload := payloadHook(profile);
                  var encoded := fetched + [MakePayload, Encode];
                  match encode(payload)
                  case Failure(e) => Run(encoded, Failure(Crash(e)))
                  case Success(jwt) => Run(encoded + [Respond(jwt)], Success(respond(jwt, grant)))
  }

  /** The encode hook is called only after both provider calls succeeded:
      a failed exchange or profile fetch never issues a token. */
  lemma NoTokenWithoutProvider<P, R>(c: Config, code: Option<string>, baseUrl: string,
                                     post: TokenRequest -> Response, get: ProfileRequest -> Response,
                                     payloadHook: Json -> P, encode: P -> Result<string, Exception>,
                                     respond: (string, Json) -> R)
    ensures var run := HandleCallback(c, code, baseUrl, post, get, payloadHook, encode, respond);
      Encode in run.trace ==>
        && code.Some?
        && run.trace[0] == PostToken(TokenRequestFor(c, code.value, baseUrl).value)
        && ClassifyToken(post(run.trace[0].tokenRequest)).Success?
        && ClassifyProfile(get(run.trace[1].profileRequest)).Success?
  {
    var run := HandleCallback(c, code, baseUrl, post, get, payloadHook, encode, respond);
    if Encode in run.trace {
      var i :| 0 <= i < |run.trace| && run.trace[i] == Encode;
      assert i >= 2;
    }
  }

  /** A token URL that cannot be built (a host or token path that is not a
      string) raises TypeError before any call to the provider. */
  lemma TokenUrlFailureStops<P, R>(c: Config, code: string, baseUrl: string,
                                   post: TokenRequest -> Response, get: ProfileRequest -> Response,
                                   payloadHook: Json -> P, encode: P -> Result<string, Exception>,
                                   respond: (string, Json) -> R)
    requires TokenUrl(c).Failure?
    ensures HandleCallback(c, Some(code), baseUrl, post, get, payloadHook, encode, respond)
      == Run([], Failure(Crash(TypeError)))
  {
  }

  /** A failed exchange ends the run right after the exchange call, with the
      exchange's own failure. */
  lemma ExchangeFailureStops<P, R>(c: Config, code: string, baseUrl: string,
                                   post: TokenRequest -> Response, get: ProfileRequest -> Response,
                                   payloadHook: Json -> P, encode: P -> Result<string, Exception>,
                                   respond: (string, Json) -> R)
    requires TokenRequestFor(c, code, baseUrl).Success?
    requires ClassifyToken(post(TokenRequestFor(c, code, baseUrl).value)).Failure?
    ensures HandleCallback(c, Some(code), baseUrl, post, get, payloadHook, encode, respond)
      == Run([PostToken(TokenRequestFor(c, code, baseUrl).value)],
             Failure(ClassifyToken(post(TokenRequestFor(c, code, baseUrl).value)).error))
  {
  }

  /** A grant the view cannot use ends the run right after the exchange,
      before any profile fetch: a grant without `access_token` or
      `endpoint` (or one that is not a JSON object) raises at the subscript,
      and a profile URL that cannot be built raises TypeError. The run
      carries the first of these errors. */
  lemma MalformedGrantStops<P, R>(c: Config, code: string, baseUrl: string,
                                  post: TokenRequest -> Response, get: ProfileRequest -> Response,
                                  payloadHook: Json -> P, encode: P -> Result<string, Exception>,
                                  respond: (string, Json) -> R, grant: Json)
    requires TokenRequestFor(c, code, baseUrl).Success?
    requires ClassifyToken(post(TokenRequestFor(c, code, baseUrl).value)) == Success(grant)
    requires || Subscript(grant, "access_token").Failure?
             || Subscript(grant, "endpoint").Failure?
             || ProfileRequestFor(c, Subscript(grant, "access_token").value,
                                  Subscript(grant, "endpoint").value).Failure?
    ensures var run := HandleCallback(c, Some(code), baseUrl, post, get, payloadHook, encode, respond);
      && run.trace == [PostToken(TokenRequestFor(c, code, baseUrl).value)]
      && run.outcome == Failure(Crash(
           if Subscript(grant, "access_token").Failure? then Subscript(grant, "access_token").error
           else if Subscript(grant, "endpoint").Failure? then Subscript(grant, "endpoint").error
           else ProfileRequestFor(c, Subscript(grant, "access_token").value,
                                  Subscript(grant, "endpoint").value).error))
  {
  }

  /** A failed profile fetch ends the run right after that fetch, which was
      sent to provider host + the grant's endpoint with the grant's access
      token; the run carries the fetch's own failure. */
  lemma ProfileFailureStops<P, R>(c: Config, code: string, baseUrl: string,
                                  post: TokenRequest -> Response, get: ProfileRequest -> Response,
                                  payloadHook: Json -> P, encode: P -> Result<string, Exception>,
                                  respond: (string, Json) -> R,
                                  host: string, grant: map<string, Json>, token: Json, endpoint: string)
    requires TokenUrl(c).Success? && Get(c, "URS_HOST") == Str(host)
    requires post(TokenRequestFor(c, code, baseUrl).value) == Response(200, Some(JObj(grant)))
    requires "access_token" in grant && grant["access_token"] == token
    requires "endpoint" in grant && grant["endpoint"] == JStr(endpoint)
    requires ClassifyProfile(get(ProfileRequest(host + endpoint, token))).Failure?
    ensures HandleCallback(c, Some(code), baseUrl, post, get, payloadHook, encode, respond)
      == Run([PostToken(TokenRequestFor(c, code, baseUrl).value), GetProfile(ProfileRequest(host + endpoint, token))],
             Failure(ClassifyProfile(get(ProfileRequest(host + endpoint, token))).error))
  {
  }

  /** An encode hook that raises ends the run right after the encode call,
      with the hook's own exception: no token reaches the response hook. */
  lemma EncodeFailureStops<P, R>(c: Config, code: string, baseUrl: string,
                                 post: TokenRequest -> Response, get: ProfileRequest -> Response,
                                 payloadHook: Json -> P, encode: P -> Result<string, Exception>,
                                 respond: (string, Json) -> R,
                                 host: string, grant: map<string, Json>, token: Json, endpoint: string,
                                 profile: Json)
    requires TokenUrl(c).Success? && Get(c, "URS_HOST") == Str(host)
    requires post(TokenRequestFor(c, code, baseUrl).value) == Response(200, Some(JObj(grant)))
    requires "access_token" in grant && grant["access_token"] == token
    requires "endpoint" in grant && grant["endpoint"] == JStr(endpoint)
    requires get(ProfileRequest(host + endpoint, token)) == Response(200, Some(profile))
    requires encode(payloadHook(profile)).Failure?
    ensures HandleCallback(c, Some(code), baseUrl, post, get, payloadHook, encode, respond)
      == Run([PostToken(TokenRequestFor(c, code, baseUrl).value), GetProfile(ProfileRequest(host + endpoint, token)),
              MakePayload, Encode],
             Failure(Crash(encode(payloadHook(profile)).error)))
  {
  }

  /** The successful run: the code is exchanged at the token URL with this
      request's base URL as redirect; the profile is fetched from provider
      host + the grant's endpoint with the grant's access token; the
      response hook receives exactly the encoded payload built from that
      profile, and the grant as the provider sent it. */
  lemma SuccessfulCallback<P, R>(c: Config, code: string, baseUrl: string,
                                 post: TokenRequest -> Response, get: ProfileRequest -> Response,
                                 payloadHook: Json -> P, encode: P -> Result<string, Exception>,
                                 respond: (string, Json) -> R,
                                 host: string, grant: map<string, Json>, token: Json, endpoint: string,
                                 profile: Json, jwt: string)
    requires TokenUrl(c).Success? && Get(c, "URS_HOST") == Str(host)
    requires post(TokenRequestFor(c, code, baseUrl).value) == Response(200, Some(JObj(grant)))
    requires "access_token" in grant && grant["access_token"] == token
    requires "endpoint" in grant && grant["endpoint"] == JStr(endpoint)
    requires get(ProfileRequest(host + endpoint, token)) == Response(200, Some(profile))
    requires encode(payloadHook(profile)) == Success(jwt)
    ensures var run := HandleCallback(c, Some(code), baseUrl, post, get, payloadHook, encode, respond);
      && run.outcome == Success(respond(jwt, JObj(grant)))
      && run.trace == [PostToken(TokenRequest(TokenUrl(c).value, Get(c, "URS_UID"), Get(c, "URS_PASSWORD"),
                                              "authorization_code", code, baseUrl)),
                       GetProfile(ProfileRequest(host + endpoint, token)),
                       MakePayload, Encode, Respond(jwt)]
  {
  }

  /** The test suite's scenario: default host, grant
      `{"access_token": "asdf", "endpoint": "api/username"}`; the profile is
      fetched from `https://urs.earthdata.nasa.gov/api/username` with bearer
      `asdf`. */
  lemma FixtureProfileUrl(c: Config)
    requires "SECRET_KEY" in c && "URS_HOST" !in c
    ensures ProfileRequestFor(InitApp(c).value, JStr("asdf"), JStr("api/username"))
        == Success(ProfileRequest(DefaultHost + "api/username", JStr("asdf")))
  {
    assert Defaults["URS_HOST"] == Str(DefaultHost);
  }
}

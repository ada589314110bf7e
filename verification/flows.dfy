/** The extension with its default hooks plugged in: the identity payload
    hook, the default user hook, and the default encode and decode handlers.
    These lemmas follow a token from the callback that issues it to the
    guard that checks it. */
module Flows {
  import opened Runtime
  import opened Json
  import opened Config
  import opened Text
  import opened Serializer
  import opened Provider
  import opened Callback
  import opened Guard

  /** `_default_payload_handler`: the profile is the payload, so the default
      user hook recovers exactly the profile from it (a null profile aside). */
  function DefaultPayloadHook(profile: Json): (payload: Json)
    ensures profile != JNull ==> DefaultUserHook(payload) == Some(profile)
    ensures profile == JNull ==> DefaultUserHook(payload).None?
  {
    profile
  }

  /** `_default_user_handler`: the payload is the user; the guard's `is None`
      test then refuses only a JSON null payload. */
  function DefaultUserHook(payload: Json): (user: Option<Json>)
    ensures user.Some? <==> payload != JNull
    ensures user.Some? ==> user.value == payload
  {
    if payload == JNull then None else Some(payload)
  }

  /** A successful callback with the default hooks issues a token that, sent
      back as `Bearer <token>`, passes the guard with the profile itself as
      current user, provided the signing library decodes a token it has just
      signed to its payload and the token has no whitespace. */
  lemma IssuedTokenAuthenticates<R>(c: Config, code: string, baseUrl: string,
                                    post: TokenRequest -> Response, get: ProfileRequest -> Response,
                                    dumps: (SerializerParams, Json) -> string,
                                    loads: (SerializerParams, string) -> LoadResult<Json>,
                                    respond: (string, Json) -> R,
                                    host: string, grant: map<string, Json>, accessToken: Json, endpoint: string,
                                    profile: Json, realm: Option<string>, defaultRealm: string, ctx: Context<Json>)
    requires TokenUrl(c).Success? && Get(c, "URS_HOST") == Str(host) && GetSerializer(c).Success?
    requires post(TokenRequestFor(c, code, baseUrl).value) == Response(200, Some(JObj(grant)))
    requires "access_token" in grant && grant["access_token"] == accessToken
    requires "endpoint" in grant && grant["endpoint"] == JStr(endpoint)
    requires get(ProfileRequest(host + endpoint, accessToken)) == Response(200, Some(profile))
    requires profile != JNull
    requires IsWord(dumps(GetSerializer(c).value, profile))
    requires loads(GetSerializer(c).value, dumps(GetSerializer(c).value, profile)) == Loaded(profile)
    ensures var jwt := dumps(GetSerializer(c).value, profile);
      && HandleCallback(c, Some(code), baseUrl, post, get, DefaultPayloadHook,
                        (p: Json) => DefaultEncode(c, dumps, p), respond).outcome
         == Success(respond(jwt, JObj(grant)))
      && VerifyUrs(realm, defaultRealm, Some("Bearer " + jwt), (t: string) => DefaultDecode(c, loads, t),
                   DefaultUserHook, ctx)
         == GuardResult(Authenticated(profile), Context(Some(profile)))
  {
    var jwt := dumps(GetSerializer(c).value, profile);
    var encode := (p: Json) => DefaultEncode(c, dumps, p);
    assert encode(DefaultPayloadHook(profile)) == Success(jwt);
    SuccessfulCallback(c, code, baseUrl, post, get, DefaultPayloadHook, encode, respond,
                       host, grant, accessToken, endpoint, profile, jwt);
    var decode := (t: string) => DefaultDecode(c, loads, t);
    EncodeDecodeRoundTrip(c, dumps, loads, profile);
    assert decode(jwt) == Decoded(profile);
    BearerTokenDecoded(realm, defaultRealm, jwt, decode, DefaultUserHook, ctx);
  }

  /** With expiry verification turned off, an authentic but expired token
      crashes the guard under the decode handler as written, and passes it
      under the corrected handler. */
  lemma UnverifiedExpiryAtTheGuard(c: Config, loads: (SerializerParams, string) -> LoadResult<Json>,
                                   token: string, payload: Json,
                                   realm: Option<string>, defaultRealm: string, ctx: Context<Json>)
    requires GetSerializer(c).Success? && loads(GetSerializer(c).value, token) == SignatureExpired(payload)
    requires "JWT_VERIFY_EXPIRATION" in c && !Truthy(c["JWT_VERIFY_EXPIRATION"])
    requires IsWord(token) && payload != JNull
    ensures VerifyUrs(realm, defaultRealm, Some("Bearer " + token), (t: string) => DefaultDecode(c, loads, t),
                      DefaultUserHook, ctx)
            == GuardResult(Crashed(UnboundLocalError), ctx)
    ensures VerifyUrs(realm, defaultRealm, Some("Bearer " + token), (t: string) => IntendedDecode(c, loads, t),
                      DefaultUserHook, ctx)
            == GuardResult(Authenticated(payload), Context(Some(payload)))
  {
    var asWritten := (t: string) => DefaultDecode(c, loads, t);
    var intended := (t: string) => IntendedDecode(c, loads, t);
    UnverifiedExpiredCrashes(c, loads, token);
    assert asWritten(token) == Raised(UnboundLocalError);
    BearerTokenDecoded(realm, defaultRealm, token, asWritten, DefaultUserHook, ctx);
    IntendedUnverifiedYieldsPayload(c, loads, token);
    assert intended(token) == Decoded(payload);
    BearerTokenDecoded(realm, defaultRealm, token, intended, DefaultUserHook, ctx);
  }
}

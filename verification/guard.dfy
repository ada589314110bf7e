/** The authorization guard: `verify_urs` and the `jwt_required` view
    decorator. The current user, an attribute of Flask's application
    context, becomes an explicit context value going in and coming out;
    the decode and user hooks are parameters. */
module Guard {
  import opened Runtime
  import opened Errors
  import opened Text
  import opened Serializer
  import opened Config

  /** The guard's store on the application context: the current user, if
      any. Requests that share one application context share this value. */
  datatype Context<U> = Context(currentUser: Option<U>)

  /** How `verify_urs` ends: normally with a user, by raising a JWTError, or
      by raising something the error handler does not catch. */
  datatype Verdict<U> = Authenticated(user: U) | Rejected(err: JWTError) | Crashed(exc: Exception)

  datatype GuardResult<U> = GuardResult(verdict: Verdict<U>, ctx: Context<U>)

  /** `realm or config['JWT_DEFAULT_REALM']`: an absent or empty realm falls
      back to the configured default. */
  function EffectiveRealm(realm: Option<string>, defaultRealm: string): (r: string)
    ensures realm.Some? && realm.value != [] ==> r == realm.value
    ensures realm.None? || realm == Some([]) ==> r == defaultRealm
  {
    if realm.Some? && realm.value != [] then realm.value else defaultRealm
  }

  function MissingHeader(realm: string): JWTError {
    JWTError("Authorization Required", "Authorization header was missing", 401,
             Some(map["WWW-Authenticate" := "JWT realm=\"" + realm + "\""]))
  }

  const UnsupportedType := BadRequest("Invalid JWT header", "Unsupported authorization type")
  const TokenMissing := BadRequest("Invalid JWT header", "Token missing")
  const TokenHasSpaces := BadRequest("Invalid JWT header", "Token contains spaces")
  const TokenExpired := BadRequest("Invalid JWT", "Token is expired")
  const TokenUndecipherable := BadRequest("Invalid JWT", "Token is undecipherable")
  const NoSuchUser := BadRequest("Invalid JWT", "User does not exist")

  /** `verify_urs(realm)` on a request whose Authorization header is
      `header`: a missing header is refused with a challenge naming the
      realm; a present one is split into words and judged by `CheckWords`. */
  function VerifyUrs<P, U>(realm: Option<string>, defaultRealm: string, header: Option<string>,
                           decode: string -> DecodeOutcome<P>, userHook: P -> Option<U>,
                           ctx: Context<U>): (r: GuardResult<U>)
    ensures r.verdict.Authenticated? ==> r.ctx.currentUser == Some(r.verdict.user)
    ensures r.verdict.Rejected? && r.verdict.err.status != 400 ==> header.None?
    ensures r.ctx != ctx ==> r.verdict.Authenticated? || r.verdict == Rejected(NoSuchUser)
  {
    match header
    case None => GuardResult(Rejected(MissingHeader(EffectiveRealm(realm, defaultRealm))), ctx)
    case Some(auth) => CheckWords(Split(auth), decode, userHook, ctx)
  }

  /** The rest of `verify_urs` once the header is split into `parts`. The
      checks run in the source's order: scheme, token count, decoding, user
      resolution. No words at all makes `parts[0]` raise IndexError. The
      current user is written only once a payload has been decoded, and then
      before the None check. */
  function CheckWords<P, U>(parts: seq<string>, decode: string -> DecodeOutcome<P>, userHook: P -> Option<U>,
                            ctx: Context<U>): (r: GuardResult<U>)
    ensures r.verdict.Authenticated? ==> r.ctx.currentUser == Some(r.verdict.user)
    ensures r.verdict.Rejected? ==> r.verdict.err.status == 400
    ensures r.ctx != ctx ==> r.verdict.Authenticated? || r.verdict == Rejected(NoSuchUser)
  {
    if |parts| == 0 then GuardResult(Crashed(IndexError), ctx)
    else if !IsBearer(parts[0]) then GuardResult(Rejected(UnsupportedType), ctx)
    else if |parts| == 1 then GuardResult(Rejected(TokenMissing), ctx)
    else if |parts| > 2 then GuardResult(Rejected(TokenHasSpaces), ctx)
    else
      match decode(parts[1])
      case Expired => GuardResult(Rejected(TokenExpired), ctx)
      case Undecipherable => GuardResult(Rejected(TokenUndecipherable), ctx)
      case Raised(e) => GuardResult(Crashed(e), ctx)
      case Decoded(payload) =>
        var user := userHook(payload);
        if user.None? then GuardResult(Rejected(NoSuchUser), Context(None))
        else GuardResult(Authenticated(user.value), Context(user))
  }

  /** A request without an Authorization header is refused with 401 and a
      challenge naming the realm: the given one, or the configured default
      when none (or an empty one) is given. Nothing is published. */
  lemma MissingHeaderChallenge<P, U>(realm: Option<string>, defaultRealm: string,
                                     decode: string -> DecodeOutcome<P>, userHook: P -> Option<U>, ctx: Context<U>)
    ensures var r := VerifyUrs(realm, defaultRealm, None, decode, userHook, ctx);
      && r.ctx == ctx
      && r.verdict.Rejected?
      && r.verdict.err.status == 401
      && r.verdict.err.error == "Authorization Required"
      && r.verdict.err.description == "Authorization header was missing"
      && r.verdict.err.headers == Some(map["WWW-Authenticate" :=
           "JWT realm=\"" + (if realm == None || realm == Some("") then defaultRealm else realm.value) + "\""])
  {
  }

  /** A header that splits into the words `w1 ... wn`: a first word that is
      not "bearer" in any case is refused as an unsupported type, even alone;
      a lone "bearer" as a missing token; three or more words as a token with
      spaces; all with 400 and without touching the current user. (With
      `SplitJoin`, this covers every header written `w1 + " " + ... + wn`.) */
  lemma MalformedHeaders<P, U>(realm: Option<string>, defaultRealm: string, auth: string, words: seq<string>,
                               decode: string -> DecodeOutcome<P>, userHook: P -> Option<U>, ctx: Context<U>)
    requires Split(auth) == words && words != []
    ensures !IsBearer(words[0]) ==>
      VerifyUrs(realm, defaultRealm, Some(auth), decode, userHook, ctx) == GuardResult(Rejected(UnsupportedType), ctx)
    ensures IsBearer(words[0]) && |words| == 1 ==>
      VerifyUrs(realm, defaultRealm, Some(auth), decode, userHook, ctx) == GuardResult(Rejected(TokenMissing), ctx)
    ensures IsBearer(words[0]) && |words| > 2 ==>
      VerifyUrs(realm, defaultRealm, Some(auth), decode, userHook, ctx) == GuardResult(Rejected(TokenHasSpaces), ctx)
  {
  }

  /** An empty or all-whitespace header is not refused with a JWTError: the
      guard crashes with IndexError and leaves the current user alone. */
  lemma BlankHeaderCrashes<P, U>(realm: Option<string>, defaultRealm: string, auth: string,
                                 decode: string -> DecodeOutcome<P>, userHook: P -> Option<U>, ctx: Context<U>)
    requires AllSpace(auth)
    ensures VerifyUrs(realm, defaultRealm, Some(auth), decode, userHook, ctx) == GuardResult(Crashed(IndexError), ctx)
  {
    SplitEmptyIff(auth);
  }

  /** For any header that splits into a case-insensitive `bearer` and one
      token, the decode outcome decides: expiry and a bad signature are
      refused with 400 without touching the current user; any other
      exception propagates; a payload is handed to the user hook, whose
      result becomes the current user, and the request passes exactly when
      that result is not None. */
  lemma BearerWordsDecoded<P, U>(realm: Option<string>, defaultRealm: string, auth: string,
                                 scheme: string, token: string,
                                 decode: string -> DecodeOutcome<P>, userHook: P -> Option<U>, ctx: Context<U>)
    requires Split(auth) == [scheme, token] && IsBearer(scheme)
    ensures var r := VerifyUrs(realm, defaultRealm, Some(auth), decode, userHook, ctx);
      && (decode(token).Expired? ==> r == GuardResult(Rejected(TokenExpired), ctx))
      && (decode(token).Undecipherable? ==> r == GuardResult(Rejected(TokenUndecipherable), ctx))
      && (decode(token).Raised? ==> r == GuardResult(Crashed(decode(token).exc), ctx))
      && (decode(token).Decoded? ==>
            && r.ctx == Context(userHook(decode(token).payload))
            && (r.verdict.Authenticated? <==> userHook(decode(token).payload).Some?)
            && (userHook(decode(token).payload).None? ==> r.verdict == Rejected(NoSuchUser)))
  {
  }

  /** The common spelling `Bearer <t>` with a whitespace-free token `t`:
      exactly `t` is decoded, and the outcome decides as above. */
  lemma BearerTokenDecoded<P, U>(realm: Option<string>, defaultRealm: string, token: string,
                                 decode: string -> DecodeOutcome<P>, userHook: P -> Option<U>, ctx: Context<U>)
    requires IsWord(token)
    ensures var r := VerifyUrs(realm, defaultRealm, Some("Bearer " + token), decode, userHook, ctx);
      && (decode(token).Expired? ==> r == GuardResult(Rejected(TokenExpired), ctx))
      && (decode(token).Undecipherable? ==> r == GuardResult(Rejected(TokenUndecipherable), ctx))
      && (decode(token).Raised? ==> r == GuardResult(Crashed(decode(token).exc), ctx))
      && (decode(token).Decoded? ==>
            && r.ctx == Context(userHook(decode(token).payload))
            && (r.verdict.Authenticated? <==> userHook(decode(token).payload).Some?)
            && (userHook(decode(token).payload).None? ==> r.verdict == Rejected(NoSuchUser)))
  {
    assert AllWords(["Bearer", token]);
    SplitJoin(["Bearer", token]);
    assert Join(["Bearer", token]) == "Bearer " + token;
    CapitalisedBearer();
    BearerWordsDecoded(realm, defaultRealm, "Bearer " + token, "Bearer", token, decode, userHook, ctx);
  }

  /** The guard lets a request through exactly when its header is some mixed
      case spelling of "bearer" followed by one token (with any whitespace
      around and between), that token decodes to a payload, and the user hook
      maps the payload to a user; that user is then the verdict and the
      current user. */
  lemma AuthenticatedIff<P, U>(realm: Option<string>, defaultRealm: string, header: Option<string>,
                               decode: string -> DecodeOutcome<P>, userHook: P -> Option<U>, ctx: Context<U>, user: U)
    ensures VerifyUrs(realm, defaultRealm, header, decode, userHook, ctx).verdict == Authenticated(user)
      <==>
      && header.Some?
      && |Split(header.value)| == 2
      && |Split(header.value)[0]| == 6
      && (forall i :: 0 <= i < 6 ==> Split(header.value)[0][i] == "bearer"[i] || Split(header.value)[0][i] == "BEARER"[i])
      && decode(Split(header.value)[1]).Decoded?
      && userHook(decode(Split(header.value)[1]).payload) == Some(user)
  {
    if header.Some? && |Split(header.value)| > 0 {
      IsBearerIff(Split(header.value)[0]);
    }
  }

  /** The current user after the guard is either the one the context held
      before it, or what the user hook made of the payload decoded from this
      request's own token. */
  lemma CurrentUserProvenance<P, U>(realm: Option<string>, defaultRealm: string, header: Option<string>,
                                    decode: string -> DecodeOutcome<P>, userHook: P -> Option<U>, ctx: Context<U>)
    ensures var r := VerifyUrs(realm, defaultRealm, header, decode, userHook, ctx);
      r.ctx == ctx
      || (header.Some? && |Split(header.value)| == 2 && decode(Split(header.value)[1]).Decoded?
          && r.ctx.currentUser == userHook(decode(Split(header.value)[1]).payload))
  {
  }

  /** The test suite's missing header: 401 with the default realm. */
  lemma TestMissingHeader<P, U>(decode: string -> DecodeOutcome<P>, userHook: P -> Option<U>, ctx: Context<U>)
    ensures VerifyUrs(None, DefaultRealm, None, decode, userHook, ctx).verdict
      == Rejected(JWTError("Authorization Required", "Authorization header was missing", 401,
                           Some(map["WWW-Authenticate" := "JWT realm=\"" + "Login Required" + "\""])))
  {
  }

  /** The test suite's `Bogus xxx` header: an unsupported type. */
  lemma TestBogusScheme<P, U>(decode: string -> DecodeOutcome<P>, userHook: P -> Option<U>, ctx: Context<U>)
    ensures VerifyUrs(None, DefaultRealm, Some("Bogus xxx"), decode, userHook, ctx).verdict
      == Rejected(JWTError("Invalid JWT header", "Unsupported authorization type", 400, None))
  {
    assert IsWord("Bogus") && IsWord("xxx");
    assert "Bogus" + " " + "xxx" == "Bogus xxx";
    SplitPair("Bogus", "xxx");
    assert !IsBearer("Bogus") by { assert Lower("Bogus")[1] == 'o'; }
  }

  /** The test suite's lone `Bearer` header: a missing token. */
  lemma TestLoneBearer<P, U>(decode: string -> DecodeOutcome<P>, userHook: P -> Option<U>, ctx: Context<U>)
    ensures VerifyUrs(None, DefaultRealm, Some("Bearer"), decode, userHook, ctx).verdict
      == Rejected(JWTError("Invalid JWT header", "Token missing", 400, None))
  {
    assert IsWord("Bearer");
    assert Split("Bearer") == ["Bearer"] by { SplitJoin(["Bearer"]); }
    CapitalisedBearer();
  }

  /** The test suite's `Bearer xxx xxx` header: a token with spaces. The
      header is a parameter pinned by the precondition because a literal in
      the ensures makes the verifier unfold `Split` over it character by
      character, which is far more expensive than the proof below. */
  lemma TestSpacedToken<P, U>(header: string, decode: string -> DecodeOutcome<P>, userHook: P -> Option<U>, ctx: Context<U>)
    requires header == "Bearer xxx xxx"
    ensures VerifyUrs(None, DefaultRealm, Some(header), decode, userHook, ctx).verdict
      == Rejected(JWTError("Invalid JWT header", "Token contains spaces", 400, None))
  {
    var bearer, xxx := "Bearer", "xxx";
    assert IsWord(bearer) && IsWord(xxx);
    assert header == bearer + (" " + (xxx + " " + xxx));
    SplitPair(xxx, xxx);
    SplitLeadingWord(bearer, " " + (xxx + " " + xxx));
    assert (" " + (xxx + " " + xxx))[1..] == xxx + " " + xxx;
    CapitalisedBearer();
  }

  /** What a protected view's request ends in. */
  datatype Reply<R> = Served(body: R) | ErrorResponse(reply: ErrorReply) | Uncaught(exc: Exception)

  /** A view wrapped by `jwt_required(realm)`: the guard runs first; a
      JWTError becomes the default error handler's JSON reply; the view runs,
      seeing the published current user, only when the guard passes. */
  function JwtRequired<P, U, R>(realm: Option<string>, defaultRealm: string, header: Option<string>,
                                decode: string -> DecodeOutcome<P>, userHook: P -> Option<U>,
                                ctx: Context<U>, view: Context<U> -> R): (r: (Reply<R>, Context<U>))
    ensures var g := VerifyUrs(realm, defaultRealm, header, decode, userHook, ctx);
      && r.1 == g.ctx
      && (r.0.Served? <==> g.verdict.Authenticated?)
      && (r.0.Served? ==> r.1.currentUser.Some? && r.0.body == view(r.1))
      && (r.0.ErrorResponse? ==> g.verdict.Rejected? && ReadJwtError(r.0.reply) == Some(g.verdict.err))
      && (g.verdict.Rejected? ==> r.0 == ErrorResponse(RenderJwtError(g.verdict.err)))
      && (g.verdict.Crashed? ==> r.0 == Uncaught(g.verdict.exc))
  {
    var g := VerifyUrs(realm, defaultRealm, header, decode, userHook, ctx);
    match g.verdict
    case Authenticated(_) => (Served(view(g.ctx)), g.ctx)
    case Rejected(e) =>
      RenderRoundTrip(e);
      (ErrorResponse(RenderJwtError(e)), g.ctx)
    case Crashed(e) => (Uncaught(e), g.ctx)
  }
}

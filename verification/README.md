# Flask-URS-JWT, modelled in Dafny

Flask-URS-JWT is a Flask extension. It signs users in through NASA's Earthdata
Login (URS), an OAuth2 provider, using the authorization-code grant of section
4.1.3 of RFC 6749. After the sign-in it issues a signed, time-boxed bearer token
(section 2.1 of RFC 6750) and checks that token on protected views. This
project models the decision logic of `flask_urs_jwt/__init__.py`. Flask,
`requests`, `itsdangerous` and the clock are replaced by explicit inputs.

| file | module | models |
|---|---|---|
| `runtime.dfy` | `Runtime` | `Option`, `Result`, and the Python exceptions that escape the extension unhandled |
| `json.dfy` | `Json` | JSON values and Python's `value[key]` on them |
| `errors.dfy` | `Errors` | the `JWTError` and `URSError` records, and the default JWT error handler's JSON reply |
| `text.dfy` | `Text` | `str.split()` with no argument, and `str.lower()` |
| `config.dfy` | `Config` | `CONFIG_DEFAULTS`, the configuration step of `init_app`, `redirect_url_rule`, `_token_url` |
| `serializer.dfy` | `Serializer` | `_get_serializer` (token lifetime), `_default_encode_handler`, `_default_decode_handler` |
| `guard.dfy` | `Guard` | `verify_urs` and the `jwt_required` decorator |
| `provider.dfy` | `Provider` | the requests `get_token` and `get_user` send, and how their responses are classified |
| `callback.dfy` | `Callback` | the `callback` view |
| `flows.dfy` | `Flows` | the default payload and user hooks, and a token followed from the callback to the guard |

Modelling choices:

- `current_user`, an attribute the guard sets on Flask's application context, is an explicit `Context` value. The guard takes it in and returns it.
- Hooks are function parameters: user, payload, encode, decode and response.
- The provider's HTTP calls are parameters too (`post`, `get`). They map a request record to a `Response(status, body)`.
- The signing library is a pair of functions. `dumps(serializer, payload)` gives a token. `loads(serializer, token)` gives `Loaded(payload)`, `SignatureExpired(payload)` or `BadSignature`.
- A Python exception that the extension does not turn into a `JWTError` or `URSError` is an `Exception` value. Examples are the `IndexError` of an empty header, a `KeyError` on a missing config key, and `raise Exception` for a missing code.
- The callback returns the list of calls it made (`Step`). This makes "the encode hook is never called" something a contract can state.
- Configuration values are `Str`, `Int`, `Bool`, `Duration(micros)` or `Null`. A `timedelta` is kept as whole microseconds.

Where the extension's behaviour may surprise a reader:

- With expiry verification off, an expired token is not decoded to its payload. The handler raises `UnboundLocalError` (see Findings).
- An empty or whitespace-only `Authorization` header is not a "malformed header" refusal. `parts[0]` raises `IndexError`.
- A lone word that is not `bearer` is refused as "Unsupported authorization type", not "Token missing". The scheme test comes first.
- A failed profile fetch is a `URSError` with status 400, not 500.
- A 400 answer from the token endpoint that follows section 5.2 of RFC 6749 but omits the optional `error_description` does not become a `URSError`. Line 263 raises KeyError, and the callback crashes.
- The test scenario's grant endpoint is `api/username`, so the profile URL is `https://urs.earthdata.nasa.gov/api/username`.

## Model

| member | source | states |
|---|---|---|
| `Errors.RenderJwtError` | flask_urs_jwt/__init__.py:152-157 | the OrderedDict handed to `jsonify` holds `status_code`, `error`, `description` in that order (the serialised reply sorts its keys under Flask's default `JSON_SORT_KEYS`), and the reply is sent at the error's own status with the error's headers |
| `Errors.ReadJwtError` | tests/test_jwt.py:30-40 | what a client reads back from an error reply keeps the reply's status and headers |
| `Errors.RenderRoundTrip` | flask_urs_jwt/__init__.py:152-157 | a client reading the rendered reply recovers exactly the raised `JWTError` |
| `Text.Split` | flask_urs_jwt/__init__.py:106 | `auth.split()` yields only non-empty words without whitespace (the whitespace set is Python's `str.isspace`) |
| `Text.SplitKeepsText` | flask_urs_jwt/__init__.py:106 | splitting drops only whitespace: the words laid end to end are the header minus its whitespace |
| `Text.SplitEmptyIff` | flask_urs_jwt/__init__.py:106-108 | the header splits into no words exactly when it is empty or all whitespace |
| `Text.SplitLeadingWord` | flask_urs_jwt/__init__.py:106 | a word followed by whitespace or nothing is split off as the first word |
| `Text.SplitJoin` | flask_urs_jwt/__init__.py:106 | splitting inverts joining proper words with single spaces |
| `Text.IsBearerIff` | flask_urs_jwt/__init__.py:108 | `parts[0].lower() == 'bearer'` holds exactly for the mixed-case spellings of "bearer" |
| `Config.InitApp` | flask_urs_jwt/__init__.py:176-180 | fails with KeyError exactly when the configuration lacks the SECRET_KEY entry (a Flask application always has one, None by default); otherwise adds every missing default, never changes a key already set, sets JWT_SECRET_KEY to SECRET_KEY only when it was absent, and adds no other key |
| `Config.UnsetFlaskSecret` | flask_urs_jwt/__init__.py:176-180 | an application whose SECRET_KEY is Flask's default None initialises without error, with JWT_SECRET_KEY None |
| `Config.InitAppIdempotent` | flask_urs_jwt/__init__.py:176-180 | running `init_app`'s configuration step twice equals running it once |
| `Config.RedirectUrlRule` | flask_urs_jwt/__init__.py:196-199 | the callback route is prefix + rule, both read with `config.get`, and raises TypeError when either is missing or not a string; `Config.UrlsAfterInit` relates it to the configuration `init_app` builds |
| `Config.TokenUrl` | flask_urs_jwt/__init__.py:201-204 | the token URL is host + token path, each the application's value or else its default, and raises TypeError when either is not a string |
| `Config.UrlsAfterInit` | flask_urs_jwt/__init__.py:196-204 | after `init_app` the callback route is prefix + rule and the token URL is host + token path, each part taken from the application or else from the defaults |
| `Config.DefaultUrlParts` | flask_urs_jwt/__init__.py:29-40 | the default prefix, rule, host and token path, and the strings they join into |
| `Config.DefaultUrls` | flask_urs_jwt/__init__.py:196-204 | an application that sets none of these keys gets the route `/urs/callback` and the token URL `https://urs.earthdata.nasa.gov/oauth/token` |
| `Config.RouteNeedsInit` | flask_urs_jwt/__init__.py:196-199 | without the prefix key the callback route cannot be built (None + ... raises TypeError) |
| `Serializer.TruncSeconds` | flask_urs_jwt/__init__.py:46-49 | `int(td.total_seconds())` is the whole number of seconds, truncated toward zero, for positive and negative durations |
| `Serializer.Seconds` | flask_urs_jwt/__init__.py:44-50 | an int setting counts as itself, timedelta and bool settings count as numbers, and any other setting raises TypeError |
| `Serializer.GetSerializer` | flask_urs_jwt/__init__.py:43-55 | succeeds exactly when lifetime, leeway, secret key and algorithm are all set and the two durations are numeric; the signed lifetime is secs(lifetime) + secs(leeway), under JWT_SECRET_KEY and JWT_ALGORITHM |
| `Serializer.DefaultLifetime` | flask_urs_jwt/__init__.py:29-40 | with the defaults, tokens are signed for 3600 + 100 = 3700 seconds with HS256 under SECRET_KEY |
| `Serializer.DurationLifetimeBounds` | flask_urs_jwt/__init__.py:43-55 | for timedelta settings the signed lifetime never exceeds lifetime + leeway and falls short of it by less than two seconds |
| `Serializer.FixtureLifetime` | tests/conftest.py:44-45 | the test configuration (600 ms and 5 ms) signs tokens for 0 whole seconds |
| `Serializer.DefaultEncode` | flask_urs_jwt/__init__.py:137-139 | encoding succeeds exactly when the serializer can be configured, and then signs the payload with that serializer |
| `Serializer.DefaultDecode` | flask_urs_jwt/__init__.py:142-149 | a returned payload is the one the serializer loaded from the token; expiry is reported only for an expired token; a bad signature is reported exactly when the serializer finds one |
| `Serializer.IntendedDecode` | flask_urs_jwt/__init__.py:142-149 | the corrected handler: any payload it returns is the one carried by the token; a bad signature is reported exactly when the serializer finds one |
| `Serializer.EncodeDecodeRoundTrip` | flask_urs_jwt/__init__.py:137-149 | decoding what the default encoder issued gives the payload back, whenever the signing library does so for a fresh token |
| `Serializer.ExpiredWhenVerified` | flask_urs_jwt/__init__.py:142-149 | with JWT_VERIFY_EXPIRATION truthy, an expired token is reported as expired |
| `Serializer.UnverifiedExpiredCrashes` | flask_urs_jwt/__init__.py:142-149 | with JWT_VERIFY_EXPIRATION falsy, an expired token makes the handler as written raise UnboundLocalError |
| `Serializer.IntendedUnverifiedYieldsPayload` | flask_urs_jwt/__init__.py:142-149 | with verification off, the corrected handler never reports expiry, and it returns the payload an expired token carries |
| `Serializer.IntendedDiffersOnlyOnCrash` | flask_urs_jwt/__init__.py:142-149 | the corrected and the original handler disagree only where the original raises UnboundLocalError |
| `Guard.VerifyUrs` | flask_urs_jwt/__init__.py:91-126 | a passing request publishes its user as current user; only a missing header is refused with a status other than 400; the current user changes only when the request passes or its user does not exist |
| `Guard.CheckWords` | flask_urs_jwt/__init__.py:106-126 | every refusal after the header is split has status 400, and the current user is written only once a payload is decoded |
| `Guard.EffectiveRealm` | flask_urs_jwt/__init__.py:98 | `realm or default`: a given non-empty realm is used as is, and None or the empty string fall back to the default; `Guard.MissingHeaderChallenge` shows it named in the challenge |
| `Guard.MissingHeaderChallenge` | flask_urs_jwt/__init__.py:98-104 | no header gives 401 `Authorization Required` / `Authorization header was missing` with `WWW-Authenticate: JWT realm="<r>"`, where r is the given realm, or the default when the given realm is None or empty; the current user is untouched |
| `Guard.MalformedHeaders` | flask_urs_jwt/__init__.py:106-113 | a non-bearer first word (even alone) gives `Unsupported authorization type`, a lone bearer gives `Token missing`, more than two words give `Token contains spaces`; all have status 400 and leave the current user alone |
| `Guard.BlankHeaderCrashes` | flask_urs_jwt/__init__.py:106-108 | an empty or whitespace-only header raises IndexError rather than a JWTError, and leaves the current user alone |
| `Guard.BearerWordsDecoded` | flask_urs_jwt/__init__.py:106-126 | for every header that splits into a case-insensitive `bearer` and one token, exactly that token is decoded. Expired gives `Token is expired` and a bad signature gives `Token is undecipherable`, both 400 with the user untouched. Other decode errors propagate. A payload makes the user hook's result the current user, and the request passes iff that result is not None, else `User does not exist` |
| `Guard.BearerTokenDecoded` | flask_urs_jwt/__init__.py:115-126 | for `Bearer <t>`, exactly t is decoded. Expired gives `Token is expired` and a bad signature gives `Token is undecipherable`, both 400 with the user untouched. Other decode errors propagate. A payload makes the user hook's result the current user, and the request passes iff that result is not None, else `User does not exist` |
| `Guard.AuthenticatedIff` | flask_urs_jwt/__init__.py:106-126 | the guard yields user u exactly when the header is two words, the first a spelling of "bearer", the second decodes to a payload, and the user hook maps that payload to u |
| `Guard.CurrentUserProvenance` | flask_urs_jwt/__init__.py:123-126 | the current user after the guard is the one the context held before it, or the user hook's result for this request's own decoded token |
| `Guard.TestMissingHeader` | tests/test_jwt.py:77-81 | no header: 401 with `JWT realm="Login Required"` |
| `Guard.TestBogusScheme` | tests/test_jwt.py:83-85 | `Bogus xxx`: 400 `Unsupported authorization type` |
| `Guard.TestLoneBearer` | tests/test_jwt.py:87-89 | `Bearer`: 400 `Token missing` |
| `Guard.TestSpacedToken` | tests/test_jwt.py:91-93 | `Bearer xxx xxx`: 400 `Token contains spaces` |
| `Guard.JwtRequired` | flask_urs_jwt/__init__.py:58-72 | the view runs exactly when the guard passes, and then sees the published user; every refusal becomes the default handler's error reply, from which the client reads the guard's error, and any other exception stays uncaught |
| `Provider.TokenRequestFor` | flask_urs_jwt/__init__.py:241-255 | the exchange posts `grant_type=authorization_code`, the code and the request's base URL as `redirect_uri` to the token URL, with URS_UID and URS_PASSWORD as Basic credentials |
| `Provider.ClassifyToken` | flask_urs_jwt/__init__.py:257-268 | only 200 with a JSON body yields the grant, which is that body. 401 gives `Token Access Denied` / `Incorrect Application UID or Password`, and any status but 200, 400 and 401 gives `Unknown Error` / `Could Not Retrieve Access Token`. Every provider error here has status 500 |
| `Provider.ProviderErrorPassedThrough` | flask_urs_jwt/__init__.py:261-263 | a 400 body with `error` and `error_description` passes both through unchanged at 500; a non-JSON body raises ValueError, a body that is not an object raises TypeError, a missing `error` raises KeyError, and a missing `error_description` raises KeyError too, although section 5.2 of RFC 6749 makes it optional |
| `Provider.ProfileRequestFor` | flask_urs_jwt/__init__.py:229-234 | the profile is fetched from URS_HOST + endpoint with the access token; a missing host or non-string endpoint raises TypeError |
| `Provider.ClassifyProfile` | flask_urs_jwt/__init__.py:236-239 | only 200 yields the profile (its JSON body); any other status gives `Invalid Code` / `No Authorization Code` at 400 |
| `Callback.HandleCallback` | flask_urs_jwt/__init__.py:206-216 | a missing code raises before any call. Calls happen in the fixed order exchange, profile, payload, encode, respond. A profile fetch happens only after a successful exchange, and the payload and encode hooks only after a successful fetch. Success means all five calls were made |
| `Callback.NoTokenWithoutProvider` | flask_urs_jwt/__init__.py:206-216 | the encode hook is called only when the code was present and both provider calls succeeded |
| `Callback.TokenUrlFailureStops` | flask_urs_jwt/__init__.py:201-204 | a token URL that cannot be built (a host or token path that is not a string) ends the view with TypeError before any provider call |
| `Callback.ExchangeFailureStops` | flask_urs_jwt/__init__.py:206-211 | a failed exchange ends the view after that one call, with the exchange's own error |
| `Callback.MalformedGrantStops` | flask_urs_jwt/__init__.py:211-212 | a grant missing `access_token` or `endpoint`, or not a JSON object, and a profile URL that cannot be built (a None host or a non-string endpoint, line 234) each end the view right after the exchange, with no profile fetch and with the first of those errors (KeyError or TypeError) |
| `Callback.ProfileFailureStops` | flask_urs_jwt/__init__.py:206-216 | after a successful exchange, the profile is fetched from host + the grant's endpoint with the grant's access token; if that fetch fails the view ends right there, with the fetch's own error |
| `Callback.EncodeFailureStops` | flask_urs_jwt/__init__.py:206-216 | an encode hook that raises ends the view right after the encode call, with the hook's own exception: the response hook is never called |
| `Callback.SuccessfulCallback` | flask_urs_jwt/__init__.py:206-216 | on success, the profile is fetched from host + the grant's endpoint with the grant's access token. The response hook receives exactly `encode(payload_hook(profile))` and the unmodified grant, and its result is returned |
| `Callback.FixtureProfileUrl` | tests/conftest.py:81-88 | the test grant's endpoint `api/username` is fetched from the default host with bearer `asdf` |
| `Flows.DefaultPayloadHook` | flask_urs_jwt/__init__.py:129-130 | the payload is the profile itself, so the default user hook gets exactly the profile back; `Flows.IssuedTokenAuthenticates` follows it through a token |
| `Flows.DefaultUserHook` | flask_urs_jwt/__init__.py:133-134 | the default user is the payload, so only a null payload is refused as a missing user |
| `Flows.IssuedTokenAuthenticates` | tests/test_jwt.py:51-57 | with the default hooks, the callback hands the response hook a token that, sent as `Bearer <token>`, passes the guard with the profile as current user |
| `Flows.UnverifiedExpiryAtTheGuard` | flask_urs_jwt/__init__.py:142-149 | with verification off, an expired authentic token crashes the guard under the handler as written and passes it under the corrected one |

## Left out

- Signing, JSON serialisation and the clock of `itsdangerous`. They are the `dumps`/`loads` parameters. The signing library's round-trip and tamper-detection guarantees are not modelled; they appear only as hypotheses of `EncodeDecodeRoundTrip` and `IssuedTokenAuthenticates`.
- HTTP calls made with `requests`: HTTP Basic header construction, form encoding and the rendering of the `Authorization: Bearer %s` header of the profile fetch. They are I/O, so requests are records and responses are parameters.
- Flask plumbing: Blueprint and route registration, `render_template` in `_default_response_handler`, `jsonify`, error-handler registration, and the `LocalProxy`/app-context stack (replaced by `Context`).
- The hook setters (`response_handler`, `user_handler`, ...): they only assign a field, and the hooks are parameters here.
- `refresh`: an unimplemented stub that returns None.
- `error_handler` stores a callback that nothing reads, and no handler is registered for `URSError`. Its propagation through Flask is not modelled.
- The `post` and `get` parameters are total. A transport exception from `requests` (a connection error or timeout at `__init__.py` lines 234 and 255) propagates out of `callback` unhandled and is not represented.
- `current_user` lives on the application context, not on the request. Flask reuses an application context that is already pushed, and the test suite pushes one that all of a test's requests share. So after a refused request, the current user can still be an earlier request's user, which matters when `verify_urs` serves optional authentication. The model carries the context value through one guard call and does not model how contexts are pushed and shared.
- Hooks are total except encode and decode. An exception raised inside a user, payload or response hook is not modelled.
- Guard.VerifyUrs: JWT_DEFAULT_REALM comes in as a string. Its lookup is assumed to succeed, which `InitApp` guarantees.
- Text.Lower: lower-cases ASCII letters only. No non-ASCII character lower-cases to a letter of "bearer", so the scheme test is unaffected.
- Serializer.TruncSeconds: works on exact microseconds. The source goes through a float, which could round up to the next second only for durations far beyond any token lifetime.
- Serializer.Seconds: when JWT_EXPIRATION_DELTA and JWT_EXPIRATION_LEEWAY are both strings, line 50 concatenates them and hands the string to the signing library as the lifetime. The model raises TypeError instead. That pair is the only difference: timedeltas are first reduced to whole seconds (lines 46-49), and a None setting or a string next to a number raises TypeError at line 50 in both.
- The signing library is assumed total: building the serializer from JWT_SECRET_KEY and JWT_ALGORITHM (lines 51-55) never fails, and `dumps`/`loads` never raise. Library exceptions, such as an unsupported algorithm, a None secret or a payload it cannot serialise, are not represented. `Serializer.GetSerializer` and `Serializer.DefaultEncode` therefore succeed whenever the settings are present and numeric.
- Config.AddStrings: two numbers (ints or bools) or two timedeltas would add in Python. The model raises TypeError for every non-string operand, here and in `Provider.ProfileRequestFor` (for example an int host with a JSON-number endpoint).
- JSON numbers are integers; configuration values are limited to strings, ints, bools, timedeltas and None.

## Findings

| source | as written | input that shows it | evidently intended | confidence | as-written member | corrected member |
|---|---|---|---|---|---|---|
| flask_urs_jwt/__init__.py:142-149 | when `JWT_VERIFY_EXPIRATION` is falsy and the token has expired, `result` is never assigned and `return result` raises UnboundLocalError | `JWT_VERIFY_EXPIRATION = False` and an authentic token past its lifetime | return the payload the expired token carries (`SignatureExpired` holds it), i.e. decoding without expiry verification | medium; not executed | `Serializer.UnverifiedExpiredCrashes` | `Serializer.IntendedUnverifiedYieldsPayload` |

The guard takes the decode handler as a parameter. `Flows.UnverifiedExpiryAtTheGuard` states the guard's outcome under each handler. The rest of the model keeps the handler as written, because that is what the extension installs.

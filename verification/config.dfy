/** The application configuration the extension reads: a string-keyed map
    that `init_app` fills with the extension's defaults, and the two URLs
    derived from it. */
module Config {
  import opened Runtime

  /** A configuration value. Durations (`timedelta`) are kept as whole
      microseconds; `Null` is Python's None. */
  datatype Value = Str(s: string) | Int(i: int) | Bool(b: bool) | Duration(micros: int) | Null

  type Config = map<string, Value>

  const DefaultHost := "https://urs.earthdata.nasa.gov/"
  const DefaultTokenPath := "oauth/token"
  const DefaultRealm := "Login Required"

  /** The extension's configuration defaults. */
  const Defaults: Config := map[
    "URS_CALLBACK_RULE" := Str("/callback"),
    "URS_URL_PREFIX" := Str("/urs"),
    "URS_CALLBACK_TEMPLATE" := Str("urs_jwt/callback.html"),
    "JWT_EXPIRATION_DELTA" := Int(3600),
    "JWT_EXPIRATION_LEEWAY" := Int(100),
    "JWT_VERIFY_EXPIRATION" := Bool(true),
    "JWT_ALGORITHM" := Str("HS256"),
    "JWT_DEFAULT_REALM" := Str(DefaultRealm),
    "URS_HOST" := Str(DefaultHost),
    "URS_TOKEN_PATH" := Str(DefaultTokenPath)
  ]

  /** `config.get(key)`: the value, or None when the key is absent. */
  function Get(c: Config, key: string): Value {
    if key in c then c[key] else Null
  }

  /** `config.get(key, fallback)`. */
  function GetOr(c: Config, key: string, fallback: Value): Value {
    if key in c then c[key] else fallback
  }

  /** `config[key]`: raises KeyError when the key is absent. */
  function Lookup(c: Config, key: string): (r: Result<Value, Exception>)
    ensures r.Success? <==> key in c
    ensures r.Success? ==> r.value == c[key]
    ensures r.Failure? ==> r.error == KeyError(key)
  {
    if key in c then Success(c[key]) else Failure(KeyError(key))
  }

  /** Python's truth value of a configuration value. */
  predicate Truthy(v: Value) {
    match v
    case Str(s) => s != []
    case Int(i) => i != 0
    case Bool(b) => b
    case Duration(m) => m != 0
    case Null => false
  }

  /** `a + b` where the result is used as a URL or route: string
      concatenation; any other operand raises TypeError. */
  function AddStrings(a: Value, b: Value): (r: Result<string, Exception>)
    ensures r.Success? <==> a.Str? && b.Str?
    ensures r.Success? ==> |r.value| == |a.s| + |b.s| && r.value[..|a.s|] == a.s && r.value[|a.s|..] == b.s
    ensures r.Failure? ==> r.error == TypeError
  {
    if a.Str? && b.Str? then Success(a.s + b.s) else Failure(TypeError)
  }

  /** The keys `init_app` guarantees. */
  function InitKeys(c: Config): set<string> {
    c.Keys + Defaults.Keys + {"JWT_SECRET_KEY"}
  }

  /** `init_app`'s configuration step: `setdefault` of every default, then
      `setdefault('JWT_SECRET_KEY', config['SECRET_KEY'])`. The read of
      SECRET_KEY happens whether or not JWT_SECRET_KEY is set, so an
      application without SECRET_KEY fails with KeyError.
      On success: every key already set keeps its value, every missing
      default is added, a missing JWT_SECRET_KEY becomes SECRET_KEY, and no
      other key appears. */
  function InitApp(c: Config): (r: Result<Config, Exception>)
    ensures r.Success? <==> "SECRET_KEY" in c
    ensures r.Failure? ==> r.error == KeyError("SECRET_KEY")
    ensures r.Success? ==> r.value.Keys == InitKeys(c)
    ensures r.Success? ==> forall k :: k in c ==> r.value[k] == c[k]
    ensures r.Success? ==> forall k :: k in Defaults && k !in c ==> r.value[k] == Defaults[k]
    ensures r.Success? && "JWT_SECRET_KEY" !in c ==> r.value["JWT_SECRET_KEY"] == c["SECRET_KEY"]
  {
    var merged := map k | k in c.Keys + Defaults.Keys :: if k in c then c[k] else Defaults[k];
    if "SECRET_KEY" !in merged then Failure(KeyError("SECRET_KEY"))
    else if "JWT_SECRET_KEY" in merged then Success(merged)
    else Success(merged["JWT_SECRET_KEY" := merged["SECRET_KEY"]])
  }

  /** A Flask application's configuration always holds `SECRET_KEY`, None
      unless the application sets it, so an application that never sets a
      secret initialises without error, with JWT_SECRET_KEY None. */
  lemma UnsetFlaskSecret(c: Config)
    requires "SECRET_KEY" in c && c["SECRET_KEY"] == Null && "JWT_SECRET_KEY" !in c
    ensures InitApp(c).Success?
    ensures InitApp(c).value["JWT_SECRET_KEY"] == Null
  {
  }

  /** Initialising twice is the same as initialising once. */
  lemma InitAppIdempotent(c: Config)
    requires "SECRET_KEY" in c
    ensures InitApp(c).Success? && InitApp(InitApp(c).value) == InitApp(c)
  {
    var r := InitApp(c).value;
    assert Defaults.Keys <= r.Keys && "SECRET_KEY" in r && "JWT_SECRET_KEY" in r;
    var r2 := InitApp(r).value;
    assert r2.Keys == r.Keys;
    assert forall k :: k in r ==> r2[k] == r[k];
    assert r2 == r;
  }

  /** The `redirect_url_rule` property: URL prefix + callback rule, both read
      with `config.get`, so a missing one is None and the `+` raises. */
  function RedirectUrlRule(c: Config): (r: Result<string, Exception>)
    ensures r.Success? <==>
      && "URS_URL_PREFIX" in c && c["URS_URL_PREFIX"].Str?
      && "URS_CALLBACK_RULE" in c && c["URS_CALLBACK_RULE"].Str?
    ensures r.Success? ==> r.value == c["URS_URL_PREFIX"].s + c["URS_CALLBACK_RULE"].s
    ensures r.Failure? ==> r.error == TypeError
  {
    AddStrings(Get(c, "URS_URL_PREFIX"), Get(c, "URS_CALLBACK_RULE"))
  }

  /** The `_token_url` property: provider host + token path, each falling back
      to its default when absent. */
  function TokenUrl(c: Config): (r: Result<string, Exception>)
    ensures r.Success? <==>
      && ("URS_HOST" !in c || c["URS_HOST"].Str?)
      && ("URS_TOKEN_PATH" !in c || c["URS_TOKEN_PATH"].Str?)
    ensures r.Success? ==>
      r.value == (if "URS_HOST" in c then c["URS_HOST"].s else DefaultHost)
                 + (if "URS_TOKEN_PATH" in c then c["URS_TOKEN_PATH"].s else DefaultTokenPath)
    ensures r.Failure? ==> r.error == TypeError
  {
    AddStrings(GetOr(c, "URS_HOST", Defaults["URS_HOST"]), GetOr(c, "URS_TOKEN_PATH", Defaults["URS_TOKEN_PATH"]))
  }

  /** The string an initialised configuration holds for `key`: the
      application's own value if it set one, else the default. */
  function Effective(c: Config, key: string): Value
    requires key in Defaults
  {
    if key in c then c[key] else Defaults[key]
  }

  /** After `init_app`, the callback route is prefix + rule and the token URL
      is host + token path, taken from the application where it set them and
      from the defaults otherwise; each derivation succeeds exactly when both
      parts are strings. */
  lemma UrlsAfterInit(c: Config)
    requires "SECRET_KEY" in c
    ensures var r := InitApp(c).value;
      && RedirectUrlRule(r) == AddStrings(Effective(c, "URS_URL_PREFIX"), Effective(c, "URS_CALLBACK_RULE"))
      && TokenUrl(r) == AddStrings(Effective(c, "URS_HOST"), Effective(c, "URS_TOKEN_PATH"))
  {
  }

  /** The default entries the derived URLs are built from. */
  lemma DefaultUrlParts()
    ensures Defaults["URS_URL_PREFIX"] == Str("/urs")
    ensures Defaults["URS_CALLBACK_RULE"] == Str("/callback")
    ensures Defaults["URS_HOST"] == Str(DefaultHost)
    ensures Defaults["URS_TOKEN_PATH"] == Str(DefaultTokenPath)
    ensures "/urs" + "/callback" == "/urs/callback"
    ensures DefaultHost + DefaultTokenPath == "https://urs.earthdata.nasa.gov/oauth/token"
  {
  }

  /** An application that sets none of the route or provider keys gets the
      callback route `/urs/callback` and the token URL
      `https://urs.earthdata.nasa.gov/oauth/token`. */
  lemma DefaultUrls(c: Config)
    requires "SECRET_KEY" in c
    requires "URS_URL_PREFIX" !in c && "URS_CALLBACK_RULE" !in c
    requires "URS_HOST" !in c && "URS_TOKEN_PATH" !in c
    ensures RedirectUrlRule(InitApp(c).value) == Success("/urs/callback")
    ensures TokenUrl(InitApp(c).value) == Success("https://urs.earthdata.nasa.gov/oauth/token")
  {
    UrlsAfterInit(c);
    DefaultUrlParts();
  }

  /** Without `init_app` the callback route cannot be built: `config.get`
      yields None for both parts. */
  lemma RouteNeedsInit(c: Config)
    requires "URS_URL_PREFIX" !in c
    ensures RedirectUrlRule(c) == Failure(TypeError)
  {
  }
}

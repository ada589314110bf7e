/** The token codec wrapper: how the signing serializer is configured, and
    the default encode and decode handlers around it. Signing, JSON
    serialisation and the clock belong to the signing library and are given
    as functions: `dumps(serializer, payload)` yields a token and
    `loads(serializer, token)` yields one of three outcomes. */
module Serializer {
  import opened Runtime
  import opened Config

  const MicrosPerSecond := 1_000_000

  /** `int(td.total_seconds())`: whole seconds, truncated toward zero. */
  function TruncSeconds(micros: int): (secs: int)
    ensures micros >= 0 ==> 0 <= secs && secs * MicrosPerSecond <= micros < (secs + 1) * MicrosPerSecond
    ensures micros < 0 ==> secs <= 0 && -secs * MicrosPerSecond <= -micros < (-secs + 1) * MicrosPerSecond
  {
    if micros >= 0 then micros / MicrosPerSecond else -((-micros) / MicrosPerSecond)
  }

  /** A lifetime setting as a number of seconds: an int as is, a timedelta
      truncated to whole seconds, a bool as 0 or 1 (Python's bool is an
      int); anything else makes the later `+` raise TypeError. */
  function Seconds(v: Value): (r: Result<int, Exception>)
    ensures r.Success? <==> v.Int? || v.Duration? || v.Bool?
    ensures v.Int? ==> r == Success(v.i)
    ensures r.Failure? ==> r.error == TypeError
  {
    match v
    case Int(i) => Success(i)
    case Duration(m) => Success(TruncSeconds(m))
    case Bool(b) => Success(if b then 1 else 0)
    case _ => Failure(TypeError)
  }

  /** The settings the signing serializer is built with. */
  datatype SerializerParams = SerializerParams(secret: Value, expiresIn: int, algorithm: Value)

  /** `_get_serializer`: reads the lifetime and leeway (KeyError when
      missing), adds their whole seconds, then reads the signing key and the
      algorithm. */
  function GetSerializer(c: Config): (r: Result<SerializerParams, Exception>)
    ensures r.Success? <==>
      && "JWT_EXPIRATION_DELTA" in c && Seconds(c["JWT_EXPIRATION_DELTA"]).Success?
      && "JWT_EXPIRATION_LEEWAY" in c && Seconds(c["JWT_EXPIRATION_LEEWAY"]).Success?
      && "JWT_SECRET_KEY" in c && "JWT_ALGORITHM" in c
    ensures r.Success? ==> r.value.secret == c["JWT_SECRET_KEY"] && r.value.algorithm == c["JWT_ALGORITHM"]
    ensures r.Success? ==>
      r.value.expiresIn == Seconds(c["JWT_EXPIRATION_DELTA"]).value + Seconds(c["JWT_EXPIRATION_LEEWAY"]).value
  {
    var expiresIn :- Lookup(c, "JWT_EXPIRATION_DELTA");
    var leeway :- Lookup(c, "JWT_EXPIRATION_LEEWAY");
    var expiresSecs :- Seconds(expiresIn);
    var leewaySecs :- Seconds(leeway);
    var secret :- Lookup(c, "JWT_SECRET_KEY");
    var algorithm :- Lookup(c, "JWT_ALGORITHM");
    Success(SerializerParams(secret, expiresSecs + leewaySecs, algorithm))
  }

  /** With the defaults, a token is signed to live 3600 + 100 = 3700 seconds
      with HS256 under the application's secret key. */
  lemma DefaultLifetime(c: Config)
    requires "SECRET_KEY" in c && "JWT_SECRET_KEY" !in c
    requires "JWT_EXPIRATION_DELTA" !in c && "JWT_EXPIRATION_LEEWAY" !in c && "JWT_ALGORITHM" !in c
    ensures InitApp(c).Success?
    ensures GetSerializer(InitApp(c).value) == Success(SerializerParams(c["SECRET_KEY"], 3700, Str("HS256")))
  {
    var r := InitApp(c).value;
    assert r["JWT_EXPIRATION_DELTA"] == Int(3600);
    assert r["JWT_EXPIRATION_LEEWAY"] == Int(100);
    assert r["JWT_ALGORITHM"] == Str("HS256");
  }

  /** Timedelta settings: the signed lifetime never exceeds the configured
      lifetime plus leeway, and falls short of it by less than two seconds
      (one truncation each). */
  lemma DurationLifetimeBounds(c: Config, delta: int, leeway: int)
    requires "JWT_SECRET_KEY" in c && "JWT_ALGORITHM" in c
    requires delta >= 0 && leeway >= 0
    requires "JWT_EXPIRATION_DELTA" in c && c["JWT_EXPIRATION_DELTA"] == Duration(delta)
    requires "JWT_EXPIRATION_LEEWAY" in c && c["JWT_EXPIRATION_LEEWAY"] == Duration(leeway)
    ensures GetSerializer(c).Success?
    ensures var t := GetSerializer(c).value.expiresIn;
      t >= 0 && t * MicrosPerSecond <= delta + leeway < (t + 2) * MicrosPerSecond
  {
  }

  /** The test configuration (600 ms lifetime, 5 ms leeway) signs tokens with
      a lifetime of 0 whole seconds, which is why they expire within a
      second. */
  lemma FixtureLifetime()
    ensures var c := map["SECRET_KEY" := Str("super-secret"),
                         "JWT_EXPIRATION_DELTA" := Duration(600_000),
                         "JWT_EXPIRATION_LEEWAY" := Duration(5_000)];
      InitApp(c).Success? && GetSerializer(InitApp(c).value).Success?
      && GetSerializer(InitApp(c).value).value.expiresIn == 0
  {
    var c := map["SECRET_KEY" := Str("super-secret"),
                 "JWT_EXPIRATION_DELTA" := Duration(600_000),
                 "JWT_EXPIRATION_LEEWAY" := Duration(5_000)];
    var r := InitApp(c).value;
    assert r["JWT_EXPIRATION_DELTA"] == Duration(600_000);
    assert r["JWT_EXPIRATION_LEEWAY"] == Duration(5_000);
  }

  /** What the signing library's `loads` does with a token. An expired token
      still carries its payload. */
  datatype LoadResult<P> = Loaded(payload: P) | SignatureExpired(payload: P) | BadSignature

  /** What a decode handler does, as the guard sees it: returns a payload,
      raises SignatureExpired, raises BadSignature, or raises anything else. */
  datatype DecodeOutcome<P> = Decoded(payload: P) | Expired | Undecipherable | Raised(exc: Exception)

  /** `_default_encode_handler`: sign the payload with the configured
      serializer. */
  function DefaultEncode<P>(c: Config, dumps: (SerializerParams, P) -> string, payload: P): (r: Result<string, Exception>)
    ensures r.Success? <==> GetSerializer(c).Success?
    ensures r.Success? ==> r.value == dumps(GetSerializer(c).value, payload)
  {
    var s :- GetSerializer(c);
    Success(dumps(s, payload))
  }

  /** `_default_decode_handler` as written. An expired token re-raises when
      JWT_VERIFY_EXPIRATION is truthy; when it is falsy the handler falls
      through to `return result` with `result` never assigned, which raises
      UnboundLocalError. */
  function DefaultDecode<P>(c: Config, loads: (SerializerParams, string) -> LoadResult<P>, token: string): (r: DecodeOutcome<P>)
    ensures r.Decoded? ==> GetSerializer(c).Success? && loads(GetSerializer(c).value, token) == Loaded(r.payload)
    ensures r.Expired? ==> GetSerializer(c).Success? && loads(GetSerializer(c).value, token).SignatureExpired?
    ensures r.Undecipherable? <==> GetSerializer(c).Success? && loads(GetSerializer(c).value, token).BadSignature?
  {
    match GetSerializer(c)
    case Failure(e) => Raised(e)
    case Success(s) =>
      match loads(s, token)
      case Loaded(p) => Decoded(p)
      case BadSignature => Undecipherable
      case SignatureExpired(_) =>
        match Lookup(c, "JWT_VERIFY_EXPIRATION")
        case Failure(e) => Raised(e)
        case Success(verify) => if Truthy(verify) then Expired else Raised(UnboundLocalError)
  }

  /** The decode handler as evidently intended: with expiry verification off,
      an expired but authentic token yields the payload it carries. */
  function IntendedDecode<P>(c: Config, loads: (SerializerParams, string) -> LoadResult<P>, token: string): (r: DecodeOutcome<P>)
    ensures r.Decoded? ==> GetSerializer(c).Success? && !loads(GetSerializer(c).value, token).BadSignature?
                           && loads(GetSerializer(c).value, token).payload == r.payload
    ensures r.Undecipherable? <==> GetSerializer(c).Success? && loads(GetSerializer(c).value, token).BadSignature?
  {
    match GetSerializer(c)
    case Failure(e) => Raised(e)
    case Success(s) =>
      match loads(s, token)
      case Loaded(p) => Decoded(p)
      case BadSignature => Undecipherable
      case SignatureExpired(p) =>
        match Lookup(c, "JWT_VERIFY_EXPIRATION")
        case Failure(e) => Raised(e)
        case Success(verify) => if Truthy(verify) then Expired else Decoded(p)
  }

  /** Encoding then decoding under the same configuration gives the payload
      back, whenever the signing library returns the payload of a token it
      has just signed. */
  lemma EncodeDecodeRoundTrip<P>(c: Config, dumps: (SerializerParams, P) -> string,
                                 loads: (SerializerParams, string) -> LoadResult<P>, payload: P)
    requires GetSerializer(c).Success?
    requires loads(GetSerializer(c).value, dumps(GetSerializer(c).value, payload)) == Loaded(payload)
    ensures DefaultEncode(c, dumps, payload).Success?
    ensures DefaultDecode(c, loads, DefaultEncode(c, dumps, payload).value) == Decoded(payload)
  {
  }

  /** With expiry verification on (the default), an expired token is
      reported as expired by both handlers. */
  lemma ExpiredWhenVerified<P>(c: Config, loads: (SerializerParams, string) -> LoadResult<P>, token: string)
    requires GetSerializer(c).Success? && loads(GetSerializer(c).value, token).SignatureExpired?
    requires "JWT_VERIFY_EXPIRATION" in c && Truthy(c["JWT_VERIFY_EXPIRATION"])
    ensures DefaultDecode(c, loads, token) == Expired
    ensures IntendedDecode(c, loads, token) == Expired
  {
  }

  /** As written, turning expiry verification off makes every expired token
      crash the handler instead of yielding its payload. */
  lemma UnverifiedExpiredCrashes<P>(c: Config, loads: (SerializerParams, string) -> LoadResult<P>, token: string)
    requires GetSerializer(c).Success? && loads(GetSerializer(c).value, token).SignatureExpired?
    requires "JWT_VERIFY_EXPIRATION" in c && !Truthy(c["JWT_VERIFY_EXPIRATION"])
    ensures DefaultDecode(c, loads, token) == Raised(UnboundLocalError)
  {
  }

  /** The corrected handler never reports expiry when verification is off,
      and yields the payload an expired token carries. */
  lemma IntendedUnverifiedYieldsPayload<P>(c: Config, loads: (SerializerParams, string) -> LoadResult<P>, token: string)
    requires GetSerializer(c).Success?
    requires "JWT_VERIFY_EXPIRATION" in c && !Truthy(c["JWT_VERIFY_EXPIRATION"])
    ensures !IntendedDecode(c, loads, token).Expired?
    ensures loads(GetSerializer(c).value, token).SignatureExpired? ==>
      IntendedDecode(c, loads, token) == Decoded(loads(GetSerializer(c).value, token).payload)
  {
  }

  /** The two handlers differ only where the one as written crashes with
      UnboundLocalError. */
  lemma IntendedDiffersOnlyOnCrash<P>(c: Config, loads: (SerializerParams, string) -> LoadResult<P>, token: string)
    ensures IntendedDecode(c, loads, token) != DefaultDecode(c, loads, token) ==>
      DefaultDecode(c, loads, token) == Raised(UnboundLocalError)
  {
  }
}

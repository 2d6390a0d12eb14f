/**
 * The slice of github.com/golang-jwt/jwt/v5 the OAuth proxy relies on. The codec and the
 * cryptography are parameters (a `Library`); what is stated here is the order in which
 * `jwt.Parse` runs its steps and the claim checks it applies by default.
 */
module Jwt {
  import opened Wrappers
  import opened GoValues

  /** The signing methods the library registers, named by their "alg" header value. */
  datatype SigningMethod =
    | HS256 | HS384 | HS512
    | RS256 | RS384 | RS512
    | PS256 | PS384 | PS512
    | ES256 | ES384 | ES512
    | EdDSA

  /** The method is a `*jwt.SigningMethodHMAC`. */
  predicate IsHmac(m: SigningMethod)
  {
    m.HS256? || m.HS384? || m.HS512?
  }

  /** The method is a `*jwt.SigningMethodRSA`: PKCS #1 v1.5 only, the PSS methods have a type of their own. */
  predicate IsRsa(m: SigningMethod)
  {
    m.RS256? || m.RS384? || m.RS512?
  }

  /** rsa.PublicKey: modulus and public exponent. */
  datatype RsaPublicKey = RsaPublicKey(n: nat, e: int)

  /** The verification key a key function returns. */
  datatype Key = HmacKey(secret: seq<Byte>) | RsaKey(pub: RsaPublicKey)

  /** A token as the library decodes it before any check: its signing method (from "alg"), header and claims. */
  datatype Token = Token(alg: SigningMethod, header: map<string, Any>, claims: map<string, Any>)

  /**
   * The library's codec and cryptography: splitting and decoding a compact token (None when it
   * is malformed or names an unknown "alg"), checking its signature with a key, and signing claims.
   */
  datatype Library = Library(
    parseUnverified: string -> Option<Token>,
    verifies: (string, Key) -> bool,
    sign: (SigningMethod, map<string, Any>, seq<Byte>) -> Option<string>)

  /** The claims type a token is decoded into: `jwt.MapClaims` or a struct embedding `jwt.RegisteredClaims`. */
  datatype ClaimsShape = MapClaims | RegisteredClaims

  /**
   * A NumericDate claim in seconds: None when absent (a MapClaims also treats 0 as absent, a
   * RegisteredClaims a JSON null), an error when it is not a number.
   */
  function TimeClaim(claims: map<string, Any>, name: string, shape: ClaimsShape): (r: Result<Option<real>>)
    ensures name !in claims ==> r == Ok(None)
    ensures name in claims && claims[name].Float64? && claims[name].f != 0.0 ==> r == Ok(Some(claims[name].f))
    ensures r.Err? <==> name in claims && !claims[name].Float64? && !(shape == RegisteredClaims && claims[name].Nil?)
  {
    if name !in claims then Ok(None)
    else match claims[name]
      case Float64(f) => if f == 0.0 && shape == MapClaims then Ok(None) else Ok(Some(f))
      case Nil => if shape == RegisteredClaims then Ok(None) else Err(name + " is invalid")
      case _ => Err(name + " is invalid")
  }

  /**
   * The claim checks the default validator runs at time `now`: a present "exp" must lie in the
   * future and a present "nbf" must not; "iat" is not checked. None means the claims are valid.
   */
  function ValidateClaims(claims: map<string, Any>, shape: ClaimsShape, now: int): (r: Option<string>)
    ensures r.None? <==>
      && TimeClaim(claims, "exp", shape).Ok?
      && TimeClaim(claims, "nbf", shape).Ok?
      && (TimeClaim(claims, "exp", shape).value.Some? ==> (now as real) < TimeClaim(claims, "exp", shape).value.value)
      && (TimeClaim(claims, "nbf", shape).value.Some? ==> TimeClaim(claims, "nbf", shape).value.value <= now as real)
  {
    match TimeClaim(claims, "exp", shape)
    case Err(e) => Some("token has invalid claims: " + e)
    case Ok(exp) =>
      if exp.Some? && !((now as real) < exp.value) then Some("token has invalid claims: token is expired")
      else match TimeClaim(claims, "nbf", shape)
        case Err(e) => Some("token has invalid claims: " + e)
        case Ok(nbf) =>
          if nbf.Some? && now as real < nbf.value then Some("token has invalid claims: token is not valid yet")
          else None
  }

  /** The steps of jwt.Parse after the key function has answered: the signature, then the claims. */
  function Verify(lib: Library, token: string, t: Token, key: Result<Key>, shape: ClaimsShape, now: int): (r: Result<Token>)
    ensures r.Ok? <==> key.Ok? && lib.verifies(token, key.value) && ValidateClaims(t.claims, shape, now).None?
    ensures r.Ok? ==> r.value == t
  {
    match key
    case Err(e) => Err("token is unverifiable: error while executing keyfunc: " + e)
    case Ok(k) =>
      if !lib.verifies(token, k) then Err("token signature is invalid")
      else match ValidateClaims(t.claims, shape, now)
        case Some(e) => Err(e)
        case None => Ok(t)
  }

  /**
   * jwt.Parse / jwt.ParseWithClaims: decode, ask `keyFunc` for the key (it may refuse the
   * token), check the signature with that key, then the claims. The token is valid exactly when
   * every step passes.
   */
  function Parse(lib: Library, token: string, keyFunc: Token -> Result<Key>, shape: ClaimsShape, now: int): (r: Result<Token>)
    ensures r.Ok? <==>
      && lib.parseUnverified(token).Some?
      && keyFunc(lib.parseUnverified(token).value).Ok?
      && lib.verifies(token, keyFunc(lib.parseUnverified(token).value).value)
      && ValidateClaims(lib.parseUnverified(token).value.claims, shape, now).None?
    ensures r.Ok? ==> r.value == lib.parseUnverified(token).value
  {
    match lib.parseUnverified(token)
    case None => Err("token is malformed")
    case Some(t) => Verify(lib, token, t, keyFunc(t), shape, now)
  }

  /** A claim value after a JSON round trip: integers come back as float64 numbers, string slices as lists. */
  function JsonValue(v: Any): Any
  {
    match v
    case Int(i) => Float64(i as real)
    case StringList(ss) => AnyList(seq(|ss|, k requires 0 <= k < |ss| => Str(ss[k])))
    case _ => v
  }

  /** Claims after a JSON round trip. */
  function JsonClaims(claims: map<string, Any>): (r: map<string, Any>)
    ensures r.Keys == claims.Keys
    ensures forall k :: k in claims ==> r[k] == JsonValue(claims[k])
  {
    map k | k in claims :: JsonValue(claims[k])
  }

  /**
   * What signing and parsing promise each other: a token the library signs with method `m` and
   * secret `key` decodes to that method and to the claims as JSON carries them, and its
   * signature verifies under the same secret.
   */
  predicate SignsVerifiably(lib: Library, m: SigningMethod, claims: map<string, Any>, key: seq<Byte>)
  {
    lib.sign(m, claims, key).Some? ==>
      && lib.parseUnverified(lib.sign(m, claims, key).value).Some?
      && lib.parseUnverified(lib.sign(m, claims, key).value).value.alg == m
      && lib.parseUnverified(lib.sign(m, claims, key).value).value.claims == JsonClaims(claims)
      && lib.verifies(lib.sign(m, claims, key).value, HmacKey(key))
  }
}

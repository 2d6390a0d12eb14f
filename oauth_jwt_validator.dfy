/**
 * pkg/oauth/jwt_validator.go: validation of the IdP's access tokens. The key set comes from the
 * IdP's JWKS endpoint; a token must be signed with RSA (PKCS #1 v1.5) under the key its "kid"
 * names (section 6.3.1 of RFC 7518 for the key's "n" and "e", unpadded base64url as in section 5
 * of RFC 4648), be valid for the JWT library, come from the IdP's issuer and not be expired.
 */
module OAuthJwtValidator {
  import opened Wrappers
  import opened GoValues
  import opened GoStrings
  import opened Base64Url
  import opened Jwt
  import opened OAuthCommon
  import opened OAuthMetadata

  /** JWK: one entry of the key set, with its parameters as base64url text. */
  datatype Jwk = Jwk(kid: string, kty: string, use: string, n: string, e: string)

  /** The key entry `kid` names: the first RSA entry with that id. */
  predicate Names(key: Jwk, kid: string)
  {
    key.kid == kid && key.kty == "RSA"
  }

  /** The position of the first entry `kid` names, |keys| when there is none. */
  function FirstMatch(keys: seq<Jwk>, kid: string): (i: nat)
    ensures i <= |keys|
    ensures forall j :: 0 <= j < i ==> !Names(keys[j], kid)
    ensures i < |keys| ==> Names(keys[i], kid)
  {
    if |keys| == 0 then 0
    else if Names(keys[0], kid) then 0
    else 1 + FirstMatch(keys[1..], kid)
  }

  const TwoTo63: int := 0x8000_0000_0000_0000
  const TwoTo64: int := 0x1_0000_0000_0000_0000

  /** A Go `int` result: the integer wrapped into 64-bit two's complement. */
  function Wrap64(x: int): (r: int)
    ensures -TwoTo63 <= r < TwoTo63
    ensures (r - x) % TwoTo64 == 0
    ensures -TwoTo63 <= x < TwoTo63 ==> r == x
  {
    (x + TwoTo63) % TwoTo64 - TwoTo63
  }

  /** The exponent jwkToRSAPublicKey accumulates from the bytes of "e": shift in a byte at a time, in a Go `int`. */
  function Exponent(b: seq<Byte>): (e: int)
    ensures -TwoTo63 <= e < TwoTo63
  {
    if |b| == 0 then 0 else Wrap64(Exponent(b[..|b| - 1]) * 256 + b[|b| - 1])
  }

  lemma {:induction false} Pow256AtMostSix(k: nat)
    requires k <= 6
    ensures Pow256(k) <= 0x1_0000_0000_0000 / Pow256(6 - k)
    ensures Pow256(k) * Pow256(6 - k) == 0x1_0000_0000_0000
  {
    if k > 0 {
      Pow256AtMostSix(k - 1);
      assert Pow256(6 - (k - 1)) == 256 * Pow256(6 - k);
    } else {
      assert Pow256(6) == 256 * Pow256(5) && Pow256(5) == 256 * Pow256(4) && Pow256(4) == 256 * Pow256(3);
      assert Pow256(3) == 256 * Pow256(2) && Pow256(2) == 256 * Pow256(1) && Pow256(1) == 256;
    }
  }

  /**
   * Up to seven bytes nothing wraps: the exponent is the unsigned big-endian number the bytes
   * denote.
   */
  lemma {:induction false} ShortExponentExact(b: seq<Byte>)
    requires |b| <= 7
    ensures Exponent(b) == BigEndian(b)
  {
    if |b| > 0 {
      var prefix := b[..|b| - 1];
      ShortExponentExact(prefix);
      Pow256AtMostSix(|prefix|);
      assert Pow256(|prefix|) <= 0x1_0000_0000_0000;
      assert BigEndian(prefix) < 0x1_0000_0000_0000;
      assert BigEndian(prefix) * 256 + b[|b| - 1] < TwoTo63;
    }
  }

  /** The usual exponent "AQAB" is 65537. */
  lemma CommonExponentIs65537()
    ensures Decode("AQAB").Some? && Exponent(Decode("AQAB").value) == 65537
  {
    CommonExponent();
    ShortExponentExact([1, 0, 1]);
  }

  /** Eight bytes with the top bit set wrap to a negative exponent. */
  lemma LongExponentWraps()
    ensures Exponent([0x80, 0, 0, 0, 0, 0, 0, 0]) == -TwoTo63
  {
    var b0: seq<Byte> := [0x80];
    assert b0[..0] == [];
    assert Exponent(b0) == 0x80;
    var b1 := b0 + [0];
    assert b1[..1] == b0;
    assert Exponent(b1) == 0x8000;
    var b2 := b1 + [0];
    assert b2[..2] == b1;
    assert Exponent(b2) == 0x80_0000;
    var b3 := b2 + [0];
    assert b3[..3] == b2;
    assert Exponent(b3) == 0x8000_0000;
    var b4 := b3 + [0];
    assert b4[..4] == b3;
    assert Exponent(b4) == 0x80_0000_0000;
    var b5 := b4 + [0];
    assert b5[..5] == b4;
    assert Exponent(b5) == 0x8000_0000_0000;
    var b6 := b5 + [0];
    assert b6[..6] == b5;
    assert Exponent(b6) == 0x80_0000_0000_0000;
    var b7 := b6 + [0];
    assert b7[..7] == b6;
    assert b7 == [0x80, 0, 0, 0, 0, 0, 0, 0];
  }

  /**
   * jwkToRSAPublicKey: the modulus is the unsigned big-endian number of the decoded "n", the
   * exponent is accumulated from the decoded "e"; either failing to decode is an error.
   */
  function RsaPublicKeyOf(jwk: Jwk): (r: Result<RsaPublicKey>)
    ensures r.Ok? <==> Decode(jwk.n).Some? && Decode(jwk.e).Some?
    ensures Decode(jwk.n).None? ==> r == Err("failed to decode N parameter")
    ensures r.Ok? ==> r.value.n == BigEndian(Decode(jwk.n).value) && r.value.e == Exponent(Decode(jwk.e).value)
  {
    match Decode(jwk.n)
    case None => Err("failed to decode N parameter")
    case Some(nBytes) =>
      match Decode(jwk.e)
      case None => Err("failed to decode E parameter")
      case Some(eBytes) => Ok(RsaPublicKey(BigEndian(nBytes), Exponent(eBytes)))
  }

  /**
   * getPublicKey: an error before the key set is loaded; otherwise the key of the first RSA
   * entry with the id, and an error when no entry has it.
   */
  function PublicKeyFor(keySet: Option<seq<Jwk>>, kid: string): (r: Result<RsaPublicKey>)
    ensures keySet.None? ==> r == Err("JWKS not loaded")
    ensures keySet.Some? && (forall j :: 0 <= j < |keySet.value| ==> !Names(keySet.value[j], kid))
            ==> r == Err("key not found: " + kid)
    ensures r.Ok? ==> keySet.Some?
                      && exists j :: 0 <= j < |keySet.value| && Names(keySet.value[j], kid)
                                     && (forall i :: 0 <= i < j ==> !Names(keySet.value[i], kid))
                                     && r == RsaPublicKeyOf(keySet.value[j])
    ensures keySet.Some? && FirstMatch(keySet.value, kid) < |keySet.value| ==>
              r == RsaPublicKeyOf(keySet.value[FirstMatch(keySet.value, kid)])
  {
    match keySet
    case None => Err("JWKS not loaded")
    case Some(keys) =>
      var i := FirstMatch(keys, kid);
      if i == |keys| then Err("key not found: " + kid) else RsaPublicKeyOf(keys[i])
  }

  /**
   * The key function of ValidateToken: only RSA tokens, only with a string "kid" in the header,
   * and only with a key the key set has for it.
   */
  function KeyFor(keySet: Option<seq<Jwk>>, t: Token): (r: Result<Key>)
    ensures !IsRsa(t.alg) ==> r.Err?
    ensures r.Ok? <==> IsRsa(t.alg) && "kid" in t.header && t.header["kid"].Str?
                       && PublicKeyFor(keySet, t.header["kid"].s).Ok?
    ensures r.Ok? ==> r.value == RsaKey(PublicKeyFor(keySet, t.header["kid"].s).value)
  {
    if !IsRsa(t.alg) then Err("unexpected signing method")
    else if "kid" !in t.header || !t.header["kid"].Str? then Err("missing kid in token header")
    else match PublicKeyFor(keySet, t.header["kid"].s)
      case Err(e) => Err("failed to get public key: " + e)
      case Ok(publicKey) => Ok(RsaKey(publicKey))
  }

  /** The issuer a Claims struct decodes: "" when "iss" is absent or null, an error when it is not a string. */
  function IssuerOf(claims: map<string, Any>): (r: Result<string>)
    ensures r.Ok? <==> "iss" !in claims || claims["iss"].Str? || claims["iss"].Nil?
    ensures "iss" in claims && claims["iss"].Str? ==> r == Ok(claims["iss"].s)
  {
    if "iss" !in claims || claims["iss"].Nil? then Ok("")
    else if claims["iss"].Str? then Ok(claims["iss"].s)
    else Err("iss is invalid")
  }

  /** A claim a `string` field decodes: absent, null or a JSON string. */
  predicate DecodesAsString(claims: map<string, Any>, name: string)
  {
    name !in claims || claims[name].Nil? || claims[name].Str?
  }

  /** A claim a `[]string` field decodes: absent, null or an array of strings (a null element is ""). */
  predicate DecodesAsStringList(claims: map<string, Any>, name: string)
  {
    name !in claims || claims[name].Nil?
    || (claims[name].AnyList? && forall i :: 0 <= i < |claims[name].items| ==> claims[name].items[i].Str? || claims[name].items[i].Nil?)
  }

  /**
   * The fields Claims adds to the registered claims: "scope", "email", "name" and
   * "preferred_username" are strings, "groups" a string list. A claim of another JSON type makes
   * the decoding of the token fail.
   */
  function CustomClaimsError(claims: map<string, Any>): (r: Option<string>)
    ensures r.None? <==> DecodesAsString(claims, "scope") && DecodesAsString(claims, "email") && DecodesAsString(claims, "name")
                         && DecodesAsStringList(claims, "groups") && DecodesAsString(claims, "preferred_username")
    ensures "groups" in claims && claims["groups"].Str? ==> r.Some?
  {
    if DecodesAsString(claims, "scope") && DecodesAsString(claims, "email") && DecodesAsString(claims, "name")
       && DecodesAsStringList(claims, "groups") && DecodesAsString(claims, "preferred_username")
    then None
    else Some("token is malformed: could not JSON decode claim")
  }

  /** What a validator holds: the metadata and the key set it has loaded; a key set comes only with metadata. */
  datatype KeyState = KeyState(metadata: Option<Metadata>, keySet: Option<seq<Jwk>>)

  type ValidatorState = s: KeyState | s.keySet.Some? ==> s.metadata.Some? witness KeyState(None, None)

  /**
   * ValidateToken with the library's clock at `parseNow` and the validator's own at `checkNow`:
   * parse and verify with KeyFor, then require the loaded issuer, then reject an "exp" that lies
   * before `checkNow`. The result is the token's claims.
   */
  function ValidateTokenWith(st: ValidatorState, lib: Library, token: string, parseNow: int, checkNow: int): (r: Result<map<string, Any>>)
    ensures st.keySet.None? ==> r.Err?
    ensures r.Ok? ==>
      && Parse(lib, token, t => KeyFor(st.keySet, t), RegisteredClaims, parseNow).Ok?
      && st.metadata.Some?
      && CustomClaimsError(lib.parseUnverified(token).value.claims).None?
      && IssuerOf(lib.parseUnverified(token).value.claims) == Ok(st.metadata.value.issuer)
      && r.value == lib.parseUnverified(token).value.claims
    ensures r.Ok? ==>
      var t := lib.parseUnverified(token).value;
      && IsRsa(t.alg) && "kid" in t.header && t.header["kid"].Str?
      && PublicKeyFor(st.keySet, t.header["kid"].s).Ok?
      && lib.verifies(token, RsaKey(PublicKeyFor(st.keySet, t.header["kid"].s).value))
  {
    match Parse(lib, token, t => KeyFor(st.keySet, t), RegisteredClaims, parseNow)
    case Err(e) => Err("failed to parse token: " + e)
    case Ok(t) =>
      if CustomClaimsError(t.claims).Some? then Err("failed to parse token: " + CustomClaimsError(t.claims).value)
      else match IssuerOf(t.claims)
      case Err(e) => Err("failed to parse token: " + e)
      case Ok(issuer) =>
        if issuer != st.metadata.value.issuer then Err("invalid issuer: expected " + st.metadata.value.issuer + ", got " + issuer)
        else
          var exp := TimeClaim(t.claims, "exp", RegisteredClaims);
          if exp.Ok? && exp.value.Some? && exp.value.value < checkNow as real then Err("token expired")
          else Ok(t.claims)
  }

  /**
   * Read at a single instant, the validator's own expiry check never rejects: a token is valid
   * exactly when the library accepts it, its claims decode and its issuer is the IdP's.
   */
  lemma {:induction false} OwnExpiryCheckSubsumed(st: ValidatorState, lib: Library, token: string, now: int)
    ensures ValidateTokenWith(st, lib, token, now, now).Ok? <==>
      && Parse(lib, token, t => KeyFor(st.keySet, t), RegisteredClaims, now).Ok?
      && st.metadata.Some?
      && CustomClaimsError(lib.parseUnverified(token).value.claims).None?
      && IssuerOf(lib.parseUnverified(token).value.claims) == Ok(st.metadata.value.issuer)
  {
    var p := Parse(lib, token, t => KeyFor(st.keySet, t), RegisteredClaims, now);
    if p.Ok? {
      assert ValidateClaims(p.value.claims, RegisteredClaims, now).None?;
    }
  }

  /**
   * A token whose "groups" claim is a single string, not a list, is refused whatever its
   * signature, issuer and expiry.
   */
  lemma MistypedGroupsRejected(st: ValidatorState, lib: Library, token: string, parseNow: int, checkNow: int)
    requires lib.parseUnverified(token).Some?
    requires var claims := lib.parseUnverified(token).value.claims; "groups" in claims && claims["groups"].Str?
    ensures ValidateTokenWith(st, lib, token, parseNow, checkNow).Err?
  {
  }

  /**
   * Read at two instants, the own check rejects exactly the tokens that expire in between: a
   * token the library accepted at `parseNow` whose "exp" lies before `checkNow`.
   */
  lemma ExpiryBetweenClockReads(st: ValidatorState, lib: Library, token: string, parseNow: int, checkNow: int)
    requires Parse(lib, token, t => KeyFor(st.keySet, t), RegisteredClaims, parseNow).Ok?
    requires st.metadata.Some? && IssuerOf(lib.parseUnverified(token).value.claims) == Ok(st.metadata.value.issuer)
    requires CustomClaimsError(lib.parseUnverified(token).value.claims).None?
    ensures var exp := TimeClaim(lib.parseUnverified(token).value.claims, "exp", RegisteredClaims);
      && exp.Ok?
      && (ValidateTokenWith(st, lib, token, parseNow, checkNow).Err? <==>
            exp.value.Some? && parseNow as real < exp.value.value < checkNow as real)
  {
  }

  /** FetchJWKS: the key set, from the answer to a GET of the IdP's JWKS URI. Anything but 200 is refused. */
  function FetchJwks(answer: Result<HttpAnswer<seq<Jwk>>>): (r: Result<seq<Jwk>>)
    ensures r.Ok? <==> answer.Ok? && answer.value.status == 200 && answer.value.decoded.Ok?
    ensures r.Ok? ==> r.value == answer.value.decoded.value
    ensures answer.Ok? && answer.value.status != 200 ==> r == Err("JWKS request failed with status: " + Decimal(answer.value.status))
  {
    match answer
    case Err(e) => Err("failed to fetch JWKS: " + e)
    case Ok(HttpAnswer(status, decoded)) =>
      if status != 200 then Err("JWKS request failed with status: " + Decimal(status))
      else match decoded
        case Err(e) => Err("failed to decode JWKS: " + e)
        case Ok(keys) => Ok(keys)
  }

  /** JWTValidator: the metadata and key set it validates against, both loaded by LoadJWKS. */
  class JWTValidator {
    const mcpServerUrl: string
    var metadata: Option<Metadata>
    var keySet: Option<seq<Jwk>>

    /** A key set is only ever loaded after the metadata it came from. */
    predicate Valid()
      reads this
    {
      keySet.Some? ==> metadata.Some?
    }

    /** The validator's state, as validation sees it. */
    function State(): (st: ValidatorState)
      reads this
      requires Valid()
      ensures st.metadata == metadata && st.keySet == keySet
    {
      KeyState(metadata, keySet)
    }

    /** NewJWTValidator: nothing is loaded yet. */
    constructor (mcpServerUrl: string)
      ensures this.mcpServerUrl == mcpServerUrl && metadata == None && keySet == None
      ensures Valid()
    {
      this.mcpServerUrl := mcpServerUrl;
      metadata := None;
      keySet := None;
    }

    /**
     * LoadJWKS: keep the metadata, then fetch the key set from its JWKS URI (`get` stands for
     * the HTTP request). The key set is replaced only when the fetch succeeds; the metadata is
     * kept either way.
     */
    method LoadJWKS(md: Metadata, get: string -> Result<HttpAnswer<seq<Jwk>>>) returns (err: Option<string>)
      modifies this
      ensures metadata == Some(md) && Valid()
      ensures err.None? <==> FetchJwks(get(md.jwksUri)).Ok?
      ensures err.None? ==> keySet == Some(FetchJwks(get(md.jwksUri)).value)
      ensures err.Some? ==> keySet == old(keySet) && err == Some(FetchJwks(get(md.jwksUri)).error)
    {
      metadata := Some(md);
      var fetched := FetchJwks(get(md.jwksUri));
      if fetched.Err? {
        return Some(fetched.error);
      }
      keySet := Some(fetched.value);
      return None;
    }

    /** jwkToRSAPublicKey, with the exponent accumulated byte by byte. */
    method JwkToRSAPublicKey(jwk: Jwk) returns (r: Result<RsaPublicKey>)
      ensures r == RsaPublicKeyOf(jwk)
    {
      var nBytes := Decode(jwk.n);
      if nBytes.None? {
        return Err("failed to decode N parameter");
      }
      var eBytes := Decode(jwk.e);
      if eBytes.None? {
        return Err("failed to decode E parameter");
      }
      var n := BigEndian(nBytes.value);
      var eb := eBytes.value;
      var e := 0;
      var i := 0;
      while i < |eb|
        invariant 0 <= i <= |eb|
        invariant e == Exponent(eb[..i])
      {
        assert eb[..i + 1][..i] == eb[..i];
        e := Wrap64(e * 256 + eb[i]);
        i := i + 1;
      }
      assert eb[..|eb|] == eb;
      return Ok(RsaPublicKey(n, e));
    }

    /** getPublicKey: a search of the key set for the first RSA entry with the id. */
    method GetPublicKey(kid: string) returns (r: Result<RsaPublicKey>)
      ensures r == PublicKeyFor(keySet, kid)
    {
      if keySet.None? {
        return Err("JWKS not loaded");
      }
      var keys := keySet.value;
      var i := 0;
      while i < |keys|
        invariant 0 <= i <= |keys|
        invariant forall j :: 0 <= j < i ==> !Names(keys[j], kid)
      {
        if keys[i].kid == kid && keys[i].kty == "RSA" {
          r := JwkToRSAPublicKey(keys[i]);
          return;
        }
        i := i + 1;
      }
      return Err("key not found: " + kid);
    }

    /** The key function ValidateToken hands to the library. */
    method KeyFunc(t: Token) returns (r: Result<Key>)
      ensures r == KeyFor(keySet, t)
    {
      if !IsRsa(t.alg) {
        return Err("unexpected signing method");
      }
      if "kid" !in t.header || !t.header["kid"].Str? {
        return Err("missing kid in token header");
      }
      var publicKey := GetPublicKey(t.header["kid"].s);
      if publicKey.Err? {
        return Err("failed to get public key: " + publicKey.error);
      }
      return Ok(RsaKey(publicKey.value));
    }

    /**
     * ValidateToken: the library's steps with this validator's key function, then the issuer
     * and expiry checks.
     */
    method ValidateToken(lib: Library, token: string, parseNow: int, checkNow: int) returns (r: Result<map<string, Any>>)
      requires Valid()
      ensures r == ValidateTokenWith(State(), lib, token, parseNow, checkNow)
    {
      var st := State();
      var decoded := lib.parseUnverified(token);
      if decoded.None? {
        return Err("failed to parse token: token is malformed");
      }
      var t := decoded.value;
      var key := KeyFunc(t);
      assert key == (tk => KeyFor(st.keySet, tk))(t);
      var parsed := Verify(lib, token, t, key, RegisteredClaims, parseNow);
      if parsed.Err? {
        return Err("failed to parse token: " + parsed.error);
      }
      var claimsError := CustomClaimsError(t.claims);
      if claimsError.Some? {
        return Err("failed to parse token: " + claimsError.value);
      }
      var issuer := IssuerOf(t.claims);
      if issuer.Err? {
        return Err("failed to parse token: " + issuer.error);
      }
      if issuer.value != metadata.value.issuer {
        return Err("invalid issuer: expected " + metadata.value.issuer + ", got " + issuer.value);
      }
      var exp := TimeClaim(t.claims, "exp", RegisteredClaims);
      if exp.Ok? && exp.value.Some? && exp.value.value < checkNow as real {
        return Err("token expired");
      }
      return Ok(t.claims);
    }
  }
}

/** Token claims, issuance and validation (auth/jwt.go), over an abstract JWT
    library: signing, decoding and signature checking are parameters, as the
    library's code is not part of this model. */
module Jwt {

  import opened Wrappers
  import opened Models
  import opened Configs

  /** The signing methods golang-jwt registers, "none" included. */
  datatype SigningMethod =
    | HS256 | HS384 | HS512
    | RS256 | RS384 | RS512
    | ES256 | ES384 | ES512
    | PS256 | PS384 | PS512
    | EdDSA | NoneAlg

  /** The "alg" header value that declares each method. */
  function AlgName(m: SigningMethod): string
  {
    match m
    case HS256 => "HS256" case HS384 => "HS384" case HS512 => "HS512"
    case RS256 => "RS256" case RS384 => "RS384" case RS512 => "RS512"
    case ES256 => "ES256" case ES384 => "ES384" case ES512 => "ES512"
    case PS256 => "PS256" case PS384 => "PS384" case PS512 => "PS512"
    case EdDSA => "EdDSA" case NoneAlg => "none"
  }

  /** The methods implemented by the library's SigningMethodHMAC type. */
  predicate IsHmac(m: SigningMethod)
  {
    m == HS256 || m == HS384 || m == HS512
  }

  /** The registered claims the core sets: "exp", "iat" and "sub" (sections 4.1.4,
      4.1.6 and 4.1.2 of RFC 7519). Times are seconds since the epoch. */
  datatype RegisteredClaims = RegisteredClaims(expiresAt: Option<int>, issuedAt: Option<int>, subject: string)

  datatype JWTClaims = JWTClaims(userId: string, role: Role, registered: RegisteredClaims)

  /** A token's header and payload as the library decodes them. */
  datatype Decoded = Decoded(alg: SigningMethod, claims: JWTClaims)

  /** The JWT library, left uninterpreted.
      sign(method, claims, key): the compact token, or None when signing fails;
      decode(token): the declared algorithm and the claims, or the parse error;
      verify(token, key): None when the signature under key and the library's own
      checks of the registered claims pass, else the error. */
  datatype Library = Library(
    sign: (SigningMethod, JWTClaims, string) -> Option<string>,
    decode: string -> Result<Decoded, string>,
    verify: (string, string) -> Option<string>)

  /** GenerateToken's result, Go's (string, error) pair. */
  datatype Signed = Signed(token: string, err: Option<string>)

  /** ValidateToken's result, Go's (*JWTClaims, error) pair. */
  datatype Validated = Validated(claims: Option<JWTClaims>, err: Option<string>)

  /** The key function given to the parser: the HMAC gate on the declared method. */
  datatype KeyResult = Key(key: string) | KeyError(message: string)

  /** A parsed token; valid is set only when verification passed. */
  datatype Token = Token(alg: SigningMethod, claims: JWTClaims, valid: bool)

  datatype Parsed = Parsed(token: Option<Token>, err: Option<string>)

  const SecondsPerHour := 3600

  /** The key function's error text (followed by the declared "alg"), and the
      prefix the library puts before a key function's error (its "token is
      unverifiable" error, then the context). */
  const UnexpectedSigningMethod := "método de assinatura inesperado"
  const KeyfuncFailed := "token is unverifiable: error while executing keyfunc: "

  /** The claims GenerateToken signs for a user at time now. */
  function BuildClaims(user: User, config: Config, now: int): (c: JWTClaims)
    ensures c.userId == user.id && c.role == user.role
    ensures c.registered.subject == user.email
    ensures c.registered.issuedAt == Some(now)
    ensures c.registered.expiresAt == Some(now + config.jwtExpirationHours * SecondsPerHour)
  {
    var expirationTime := now + config.jwtExpirationHours * SecondsPerHour;
    JWTClaims(user.id, user.role, RegisteredClaims(Some(expirationTime), Some(now), user.email))
  }

  /** With the loaded configuration a token lives 24 hours from its issuance. */
  lemma ClaimsLifetime(env: Env, user: User, now: int)
    ensures var c := BuildClaims(user, LoadConfig(env), now);
            c.registered.expiresAt.value - c.registered.issuedAt.value == 24 * 3600
  {
  }

  /** GenerateToken: sign the built claims with HS256 under the configured secret;
      a signing error gives an empty token with the error. */
  function GenerateToken(lib: Library, user: User, config: Config, now: int): (r: Signed)
    ensures r.err.None? <==> lib.sign(HS256, BuildClaims(user, config, now), config.jwtSecret).Some?
    ensures r.err.None? ==> r.token == lib.sign(HS256, BuildClaims(user, config, now), config.jwtSecret).value
    ensures r.err.Some? ==> r.token == ""
  {
    match lib.sign(HS256, BuildClaims(user, config, now), config.jwtSecret)
    case None => Signed("", Some("signing failed"))
    case Some(tokenString) => Signed(tokenString, None)
  }

  /** The key function of ValidateToken: any HMAC method gets the secret, anything
      else an error naming the declared algorithm. */
  function KeyFunc(config: Config, m: SigningMethod): (k: KeyResult)
    ensures k.Key? <==> IsHmac(m)
    ensures k.Key? ==> k.key == config.jwtSecret
  {
    if !IsHmac(m) then KeyError(UnexpectedSigningMethod + ": " + AlgName(m))
    else Key(config.jwtSecret)
  }

  /** The library's ParseWithClaims as far as the core depends on it: decode, ask
      the key function for the key of the declared method (its error aborts the
      parse), then verify under that key. */
  function ParseWithClaims(lib: Library, tokenString: string, keyFunc: SigningMethod -> KeyResult): Parsed
  {
    match lib.decode(tokenString)
    case Err(e) => Parsed(None, Some(e))
    case Ok(d) =>
      match keyFunc(d.alg)
      case KeyError(e) => Parsed(Some(Token(d.alg, d.claims, false)), Some(KeyfuncFailed + e))
      case Key(k) =>
        match lib.verify(tokenString, k)
        case Some(e) => Parsed(Some(Token(d.alg, d.claims, false)), Some(e))
        case None => Parsed(Some(Token(d.alg, d.claims, true)), None)
  }

  /** ValidateToken: claims come back only when the token decodes, declares an HMAC
      method and verifies under the configured secret; otherwise there is an error
      and no claims. */
  function ValidateToken(lib: Library, tokenString: string, config: Config): (r: Validated)
    ensures r.claims.Some? <==> r.err.None?
    ensures r.claims.Some? <==>
              && lib.decode(tokenString).Ok?
              && IsHmac(lib.decode(tokenString).value.alg)
              && lib.verify(tokenString, config.jwtSecret).None?
    ensures r.claims.Some? ==> r.claims.value == lib.decode(tokenString).value.claims
  {
    var parsed := ParseWithClaims(lib, tokenString, m => KeyFunc(config, m));
    if parsed.err.Some? then Validated(None, parsed.err)
    else if !parsed.token.value.valid then Validated(None, Some("token inválido"))
    else Validated(Some(parsed.token.value.claims), None)
  }

  /** A token that declares a non-HMAC algorithm (RS256, "none", ...) is rejected
      whatever its signature, while HS384 and HS512 pass the gate. */
  lemma {:induction false} AlgorithmGate(lib: Library, tokenString: string, config: Config)
    requires lib.decode(tokenString).Ok?
    ensures !IsHmac(lib.decode(tokenString).value.alg) ==>
              ValidateToken(lib, tokenString, config) == Validated(None, Some(KeyfuncFailed + (UnexpectedSigningMethod + ": " + AlgName(lib.decode(tokenString).value.alg))))
    ensures lib.decode(tokenString).value.alg in {HS384, HS512} && lib.verify(tokenString, config.jwtSecret).None? ==>
              ValidateToken(lib, tokenString, config).claims == Some(lib.decode(tokenString).value.claims)
  {
    var d := lib.decode(tokenString).value;
    if !IsHmac(d.alg) {
      var keyFunc := m => KeyFunc(config, m);
      assert keyFunc(d.alg) == KeyError(UnexpectedSigningMethod + ": " + AlgName(d.alg));
    }
  }
}

/** internal/auth/jwt.go: the token issuer. A generator holds the RSA
    private key, always signs with RS512, and embeds a verifier built from
    the public half of its own key (so it can also serve as the gate's
    verifier). The clock is the parameter `now`, in whole seconds. */
module AuthJwt {
  import opened Wrappers
  import opened GoErrors
  import opened Jose
  import opened JwtLib

  /** `24 * time.Hour`, in seconds. */
  const DaySeconds: int := 86400

  /** `jwt.SigningMethodRS512`, the only method the issuer uses. */
  const RS512: SigningMethod := Rsa(SHA512)

  /** `jwtGeneratorRsa`. */
  datatype JwtGenerator = JwtGenerator(key: RsaPrivateKey, serviceName: string, verifier: JwtVerifier)

  /** `NewJwtGenerator(key)`: signer and verifier share one key pair. */
  function NewJwtGenerator(key: RsaPrivateKey): (g: JwtGenerator)
    ensures g.key == key
    ensures g.serviceName == Apr
    ensures g.verifier.pubKey == Public(g.key)
  {
    JwtGenerator(key, Apr, NewVerifier(Public(key)))
  }

  /** The claim set `GenerateAndSignJWT` builds for `username` and
      `audience` when the clock reads `now`. */
  function TokenClaims(username: string, audience: string, now: int): (c: Claims)
    ensures c.iss == Apr
    ensures c.sub == username
    ensures |c.aud| == 1 && c.aud[0] != ""
    ensures audience != "" ==> c.aud[0] == audience
    ensures audience == "" ==> c.aud[0] == Apr
    ensures c.iat == Some(now) && c.exp.Some? && c.exp.value > c.iat.value
    ensures forall t :: now <= t < now + DaySeconds ==> CurrentAt(c, t)
    ensures !CurrentAt(c, now + DaySeconds)
  {
    var aud := if audience != "" then audience else Apr;
    Claims(
      iss := Apr,
      sub := username,
      aud := [aud],
      exp := Some(now + DaySeconds),
      nbf := None,
      iat := Some(now),
      jti := "")
  }

  /** `(string, error)` as Go returns it. */
  datatype Signed = Signed(token: string, err: Option<Error>)

  /** `SignJwt`: sign with RS512 whatever the claims say; on failure return
      the empty string and the library error wrapped with context. */
  function SignJwt(j: Jose, g: JwtGenerator, claims: Claims): (r: Signed)
    ensures r.err.None? <==> j.sign(RS512, g.key, claims).Success?
    ensures r.err.None? ==> r.token == j.sign(RS512, g.key, claims).value
    ensures r.err.Some? ==>
      && r.token == ""
      && r.err.value == Wrapped("Error signing token: ", j.sign(RS512, g.key, claims).error, "")
  {
    match j.sign(RS512, g.key, claims)
    case Failure(e) => Signed("", Some(Errorf("Error signing token: ", e, "")))
    case Success(s) => Signed(s, None)
  }

  /** `GenerateAndSignJWT(username, audience)` at clock reading `now`. */
  function GenerateAndSignJWT(j: Jose, g: JwtGenerator, username: string, audience: string, now: int): (r: Signed)
    ensures r.err.None? <==> j.sign(RS512, g.key, TokenClaims(username, audience, now)).Success?
    ensures r.err.None? ==> r.token == j.sign(RS512, g.key, TokenClaims(username, audience, now)).value
    ensures r.err.Some? ==> r.token == ""
  {
    SignJwt(j, g, TokenClaims(username, audience, now))
  }

  /** Under the sign/verify axiom, an issued token decodes to header
      `RS512` and the claims built for it, and verifies under the
      generator's own embedded verifier. */
  lemma {:induction false} IssuedTokenVerifies(j: Jose, g: JwtGenerator, username: string, audience: string, now: int)
    requires SignThenVerify(j)
    requires g.verifier.pubKey == Public(g.key)
    requires GenerateAndSignJWT(j, g, username, audience, now).err.None?
    ensures var token := GenerateAndSignJWT(j, g, username, audience, now).token;
      && j.decode(token) == Some(DecodedToken("RS512", TokenClaims(username, audience, now)))
      && j.verify(RS512, g.verifier.pubKey, token)
  {
    var c := TokenClaims(username, audience, now);
    assert j.sign(RS512, g.key, c).Success?;
    assert Name(RS512) == "RS512";
  }
}

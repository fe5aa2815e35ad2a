/** Properties that span issuance (internal/auth/jwt.go), the login
    endpoints (internal/controllers/authController.go) and the gate
    (client/jwtlib.go): a token the service issues is accepted by a gate
    configured for its audience until it expires, and refused by any gate
    configured differently or holding another key. */
module EndToEnd {
  import opened Wrappers
  import opened GoErrors
  import opened GoStrconv
  import opened Jose
  import opened JwtLib
  import opened AuthJwt
  import opened Model
  import opened Http
  import opened AuthService
  import opened AuthController

  /** The gate's verifier accepts an issued token, within its lifetime,
      with exactly the claims it was issued with. */
  lemma {:induction false} IssuedTokenParses(j: Jose, g: JwtGenerator, username: string, audience: string, now: int, t: int)
    requires SignThenVerify(j) && ValidBeforeExpiry(j)
    requires g.verifier.pubKey == Public(g.key)
    requires now <= t < now + DaySeconds
    requires GenerateAndSignJWT(j, g, username, audience, now).err.None?
    ensures ParseJwt(j, g.verifier, GenerateAndSignJWT(j, g, username, audience, now).token, t)
         == Success(TokenClaims(username, audience, now))
  {
    var c := TokenClaims(username, audience, now);
    var token := GenerateAndSignJWT(j, g, username, audience, now).token;
    IssuedTokenVerifies(j, g, username, audience, now);
    assert CurrentAt(c, t);
    assert j.valid(c, t);
    ParseJwtAccepts(j, g.verifier, token, t, SHA512, c);
  }

  /** Round trip: a token issued with an audience passes the gate that
      protects that audience (the default audience is "apr"), with the
      issued username as principal, at any time before it expires. */
  lemma {:induction false} IssuedTokenPassesGate(j: Jose, key: RsaPrivateKey, username: string, audience: string, now: int, t: int)
    requires SignThenVerify(j) && ValidBeforeExpiry(j)
    requires now <= t < now + DaySeconds
    requires GenerateAndSignJWT(j, NewJwtGenerator(key), username, audience, now).err.None?
    ensures var g := NewJwtGenerator(key);
      var token := GenerateAndSignJWT(j, g, username, audience, now).token;
      var serviceName := if audience == "" then Apr else audience;
      CheckAuth(Verifier(j, g.verifier, t), serviceName, "Bearer " + token) == Admitted(username)
  {
    var g := NewJwtGenerator(key);
    var token := GenerateAndSignJWT(j, g, username, audience, now).token;
    var c := TokenClaims(username, audience, now);
    IssuedTokenParses(j, g, username, audience, now, t);
    SchemeIsExact(Verifier(j, g.verifier, t), Apr, token);
    var serviceName := if audience == "" then Apr else audience;
    assert c.aud[0] == serviceName && c.aud[0] != "";
    assert VerifyAudience(c, serviceName);
  }

  /** A token issued for another service is refused by the "apr" gate at
      the audience step, and the message names both audiences. */
  lemma {:induction false} ForeignAudienceRejected(j: Jose, key: RsaPrivateKey, username: string, audience: string, now: int, t: int)
    requires SignThenVerify(j) && ValidBeforeExpiry(j)
    requires audience != "" && audience != Apr
    requires now <= t < now + DaySeconds
    requires GenerateAndSignJWT(j, NewJwtGenerator(key), username, audience, now).err.None?
    ensures var g := NewJwtGenerator(key);
      var token := GenerateAndSignJWT(j, g, username, audience, now).token;
      CheckAuth(Verifier(j, g.verifier, t), Apr, "Bearer " + token)
        == Rejected(StatusUnauthorized, AudienceMessage(Apr, [audience]))
  {
    var g := NewJwtGenerator(key);
    var token := GenerateAndSignJWT(j, g, username, audience, now).token;
    var c := TokenClaims(username, audience, now);
    IssuedTokenParses(j, g, username, audience, now, t);
    SchemeIsExact(Verifier(j, g.verifier, t), Apr, token);
    assert c.aud == [audience];
    assert !VerifyAudience(c, Apr);
  }

  /** From the moment it expires, an issued token is refused as an invalid
      token. */
  lemma {:induction false} ExpiredTokenRejected(j: Jose, key: RsaPrivateKey, username: string, audience: string, now: int, t: int)
    requires SignThenVerify(j) && InvalidFromExpiry(j)
    requires t >= now + DaySeconds
    requires GenerateAndSignJWT(j, NewJwtGenerator(key), username, audience, now).err.None?
    ensures var g := NewJwtGenerator(key);
      var token := GenerateAndSignJWT(j, g, username, audience, now).token;
      forall serviceName :: CheckAuth(Verifier(j, g.verifier, t), serviceName, "Bearer " + token)
        == Rejected(StatusUnauthorized, MsgBadToken)
  {
    var g := NewJwtGenerator(key);
    var token := GenerateAndSignJWT(j, g, username, audience, now).token;
    var c := TokenClaims(username, audience, now);
    IssuedTokenVerifies(j, g, username, audience, now);
    assert !j.valid(c, t);
    SchemeIsExact(Verifier(j, g.verifier, t), Apr, token);
    assert ParseJwt(j, g.verifier, token, t).Failure?;
  }

  /** A gate holding the public half of a different key refuses the token. */
  lemma {:induction false} OtherKeyRejected(j: Jose, key: RsaPrivateKey, other: RsaPrivateKey, username: string, audience: string, now: int, t: int)
    requires SignThenVerify(j) && KeyBound(j)
    requires other != key
    requires GenerateAndSignJWT(j, NewJwtGenerator(key), username, audience, now).err.None?
    ensures var token := GenerateAndSignJWT(j, NewJwtGenerator(key), username, audience, now).token;
      forall serviceName :: CheckAuth(Verifier(j, NewVerifier(Public(other)), t), serviceName, "Bearer " + token)
        == Rejected(StatusUnauthorized, MsgBadToken)
  {
    var g := NewJwtGenerator(key);
    var token := GenerateAndSignJWT(j, g, username, audience, now).token;
    var c := TokenClaims(username, audience, now);
    IssuedTokenVerifies(j, g, username, audience, now);
    assert j.sign(RS512, key, c).Success?;
    assert !j.verify(RS512, Public(other), token);
    LookupName(RS512);
    SchemeIsExact(Verifier(j, g.verifier, t), Apr, token);
    assert ParseJwt(j, NewVerifier(Public(other)), token, t).Failure?;
  }

  /** A successful login's token passes the "apr" gate with the PIB the
      credentials carried as principal, whatever service they named. */
  lemma {:induction false} LoginTokenPassesGate(
    creds: CredentialsDto, checkCredentials: CredentialsDto -> Option<Error>,
    j: Jose, key: RsaPrivateKey, now: int, t: int)
    requires SignThenVerify(j) && ValidBeforeExpiry(j)
    requires now <= t < now + DaySeconds
    requires Login(Success(creds), checkCredentials, j, NewJwtGenerator(key), now).status == StatusOK
    ensures var g := NewJwtGenerator(key);
      var r := Login(Success(creds), checkCredentials, j, g, now);
      r.body.JwtBody? && CheckAuth(Verifier(j, g.verifier, t), Apr, "Bearer " + r.body.jwt) == Admitted(creds.pib)
  {
    var g := NewJwtGenerator(key);
    assert GenerateAndSignJWT(j, g, creds.pib, Apr, now).err.None?;
    IssuedTokenPassesGate(j, key, creds.pib, Apr, now, t);
  }

  /** An SSO token for a named service passes that service's gate with the
      caller's (canonical, numeric) principal. */
  lemma {:induction false} SSOTokenPassesServiceGate(
    service: string, n: int, j: Jose, key: RsaPrivateKey, now: int, t: int)
    requires SignThenVerify(j) && ValidBeforeExpiry(j)
    requires service != "" && InInt64(n)
    requires now <= t < now + DaySeconds
    requires SSOLogin(service, Itoa(n), j, NewJwtGenerator(key), now).status == StatusOK
    ensures var g := NewJwtGenerator(key);
      var r := SSOLogin(service, Itoa(n), j, g, now);
      r.body.JwtBody? && CheckAuth(Verifier(j, g.verifier, t), service, "Bearer " + r.body.jwt) == Admitted(Itoa(n))
  {
    var g := NewJwtGenerator(key);
    AtoiItoa(n);
    assert GenerateAndSignJWT(j, g, Itoa(n), service, now).err.None?;
    IssuedTokenPassesGate(j, key, Itoa(n), service, now, t);
  }

  /** Impact of the inverted credential check: once the PIB is found, login
      issues a token whatever password was given. */
  lemma {:induction false} LoginAsWrittenIgnoresPassword(
    creds: CredentialsDto,
    findOneCredentials: string -> CredentialLookup,
    compareHashAndPassword: (string, string) -> Option<Error>,
    j: Jose, g: JwtGenerator, now: int)
    requires findOneCredentials(creds.pib).err.None?
    requires j.sign(RS512, g.key, TokenClaims(creds.pib, Apr, now)).Success?
    ensures Login(Success(creds), c => CheckCredentialsAsWritten(c, findOneCredentials, compareHashAndPassword), j, g, now).status
         == StatusOK
  {
  }

  /** With the intended credential check, a login succeeds only if the
      password matched the stored hash. */
  lemma {:induction false} LoginRequiresPasswordMatch(
    creds: CredentialsDto,
    findOneCredentials: string -> CredentialLookup,
    compareHashAndPassword: (string, string) -> Option<Error>,
    j: Jose, g: JwtGenerator, now: int)
    requires Login(Success(creds), c => CheckCredentials(c, findOneCredentials, compareHashAndPassword), j, g, now).status
          == StatusOK
    ensures findOneCredentials(creds.pib).err.None?
    ensures compareHashAndPassword(findOneCredentials(creds.pib).saved.password, creds.password).None?
  {
  }
}

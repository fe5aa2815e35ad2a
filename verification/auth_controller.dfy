/** internal/controllers/authController.go: the login endpoints that issue
    tokens. Request binding, the credential check and the principal stored
    by the gate are inputs; token issuance is the `AuthJwt` model. */
module AuthController {
  import opened Wrappers
  import opened GoErrors
  import opened GoStrconv
  import opened Model
  import opened Http
  import opened Jose
  import opened JwtLib
  import opened AuthJwt

  /** `Login`. `bound` is the outcome of binding the JSON body (its error
      text on failure); `checkCredentials` is the auth service. */
  function Login(
    bound: Result<CredentialsDto, string>,
    checkCredentials: CredentialsDto -> Option<Error>,
    j: Jose, g: JwtGenerator, now: int): (r: Response)
    ensures bound.Failure? ==> r == Response(StatusInternalServerError, ErrorBody(bound.error), false)
    ensures bound.Success? && checkCredentials(bound.value) == Some(DatabaseError) ==>
      r == Response(StatusInternalServerError, ErrorBody("Internal server error"), true)
    ensures bound.Success? && checkCredentials(bound.value).Some? && checkCredentials(bound.value) != Some(DatabaseError) ==>
      r == Response(StatusUnauthorized, ErrorBody("Invalid credentials"), true)
    ensures (bound.Success? && checkCredentials(bound.value).None? &&
             j.sign(RS512, g.key, TokenClaims(bound.value.pib, Apr, now)).Failure?) ==>
      r == Response(StatusInternalServerError, ErrorBody("Internal server error"), false)
    ensures r.status == StatusOK <==>
      && bound.Success?
      && checkCredentials(bound.value).None?
      && j.sign(RS512, g.key, TokenClaims(bound.value.pib, Apr, now)).Success?
    ensures r.status == StatusOK ==>
      && !r.aborted
      && r.body == JwtBody(j.sign(RS512, g.key, TokenClaims(bound.value.pib, Apr, now)).value)
  {
    match bound
    case Failure(bindError) => Response(StatusInternalServerError, ErrorBody(bindError), false)
    case Success(creds) =>
      match checkCredentials(creds)
      case Some(err) =>
        if err == DatabaseError then Response(StatusInternalServerError, ErrorBody("Internal server error"), true)
        else Response(StatusUnauthorized, ErrorBody("Invalid credentials"), true)
      case None =>
        var signed := GenerateAndSignJWT(j, g, creds.pib, Apr, now);
        if signed.err.Some? then Response(StatusInternalServerError, ErrorBody("Internal server error"), false)
        else Response(StatusOK, JwtBody(signed.token), false)
  }

  /** The `Service` field of the credentials never influences the
      response: the issued audience is always "apr". */
  lemma LoginIgnoresService(
    creds: CredentialsDto, otherService: string,
    checkCredentials: CredentialsDto -> Option<Error>,
    j: Jose, g: JwtGenerator, now: int)
    requires checkCredentials(creds) == checkCredentials(creds.(service := otherService))
    ensures Login(Success(creds), checkCredentials, j, g, now)
         == Login(Success(creds.(service := otherService)), checkCredentials, j, g, now)
  {
  }

  /** `SSOLogin`. `serviceParam` is the `:service` path parameter (`""` when
      absent) and `principal` the string the gate stored (`""` when absent).
      The source passes the parsed integer where the issuer expects a
      string; the subject is modelled as that integer's decimal form. */
  function SSOLogin(serviceParam: string, principal: string, j: Jose, g: JwtGenerator, now: int): (r: Response)
    ensures Atoi(principal).None? ==> r == Response(StatusBadRequest, ErrorBody("Invalid JWT"), true)
    ensures (Atoi(principal).Some? &&
             j.sign(RS512, g.key, TokenClaims(Itoa(Atoi(principal).value), serviceParam, now)).Failure?) ==>
      r == Response(StatusInternalServerError, ErrorBody("Couldn't generate JWT"), true)
    ensures r.status == StatusOK <==>
      && Atoi(principal).Some?
      && j.sign(RS512, g.key, TokenClaims(Itoa(Atoi(principal).value), serviceParam, now)).Success?
    ensures r.status == StatusOK ==>
      && !r.aborted
      && r.body == JwtBody(j.sign(RS512, g.key, TokenClaims(Itoa(Atoi(principal).value), serviceParam, now)).value)
  {
    match Atoi(principal)
    case None => Response(StatusBadRequest, ErrorBody("Invalid JWT"), true)
    case Some(pib) =>
      var signed := GenerateAndSignJWT(j, g, Itoa(pib), serviceParam, now);
      if signed.err.Some? then Response(StatusInternalServerError, ErrorBody("Couldn't generate JWT"), true)
      else Response(StatusOK, JwtBody(signed.token), false)
  }

  /** An absent principal reads as "" and is refused before any token is
      issued. */
  lemma SSOLoginWithoutPrincipal(serviceParam: string, j: Jose, g: JwtGenerator, now: int)
    ensures SSOLogin(serviceParam, "", j, g, now) == Response(StatusBadRequest, ErrorBody("Invalid JWT"), true)
  {
  }

  /** For a principal in decimal form (as the login endpoint issues for a
      numeric PIB) the SSO token's subject is the principal itself: a 200
      carries the token signed for exactly that subject. */
  lemma {:induction false} SSOSubjectIsPrincipal(serviceParam: string, n: int, j: Jose, g: JwtGenerator, now: int)
    requires InInt64(n)
    ensures Atoi(Itoa(n)).Some? && Itoa(Atoi(Itoa(n)).value) == Itoa(n)
    ensures var r := SSOLogin(serviceParam, Itoa(n), j, g, now);
      r.status == StatusOK ==>
        r.body == JwtBody(j.sign(RS512, g.key, TokenClaims(Itoa(n), serviceParam, now)).value)
  {
    AtoiItoa(n);
  }
}

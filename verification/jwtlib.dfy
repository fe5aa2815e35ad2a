/** client/jwtlib.go: the verifier (`keyFunc`, `ParseJwt`) and the gin
    middleware `CheckAuth` that gates protected routes on a bearer token.
    The gin context is reduced to what the middleware reads (the
    `Authorization` header, `""` when absent) and what it does (abort with
    a status and an error body, or store the principal and continue). */
module JwtLib {
  import opened Wrappers
  import opened GoStrings
  import opened Jose
  import opened Http

  /** The trusted issuer name, also the default audience. */
  const Apr: string := "apr"

  const MsgNoHeader: string := "Authorization header not provided"
  const MsgBadFormat: string := "invalid format for bearer token"
  const MsgBadToken: string := "invalid token"
  const MsgBadIssuer: string := "invalid issuer"

  /** `defaultJwtVerifier`: holds the public key tokens must verify under. */
  datatype JwtVerifier = DefaultVerifier(pubKey: RsaPublicKey)

  function NewVerifier(pubKey: RsaPublicKey): (v: JwtVerifier)
    ensures v.pubKey == pubKey
  {
    DefaultVerifier(pubKey)
  }

  /** The three header names of the RSA PKCS#1 v1.5 family. */
  predicate IsRsaPkcs1Alg(alg: string) {
    alg == "RS256" || alg == "RS384" || alg == "RS512"
  }

  /** `keyFunc`: hand out the configured public key only to the RSA PKCS#1
      v1.5 methods; everything else ("none", HMAC, ECDSA, RSA-PSS, EdDSA)
      is refused before any signature is looked at. */
  function KeyFunc(v: JwtVerifier, alg: string, m: SigningMethod): (r: Result<RsaPublicKey, string>)
    requires Lookup(alg) == Some(m)
    ensures r.Success? <==> IsRsaPkcs1Alg(alg)
    ensures r.Success? ==> r.value == v.pubKey
    ensures r.Failure? ==> r.error == "Unexpected signing method: " + alg
  {
    if m.Rsa? then
      assert alg == Name(m);
      Success(v.pubKey)
    else
      assert alg == Name(m);
      OnlyRsaNamesAreRsaPkcs1(m);
      Failure("Unexpected signing method: " + alg)
  }

  /** The RS names belong to the RSA PKCS#1 v1.5 methods and to no other. */
  lemma OnlyRsaNamesAreRsaPkcs1(m: SigningMethod)
    ensures IsRsaPkcs1Alg(Name(m)) <==> m.Rsa?
  {
    match m
    case MethodNone =>
    case EdDsa =>
    case Hmac(h) => assert Name(m)[0] == 'H';
    case Rsa(h) =>
    case Ecdsa(h) => assert Name(m)[0] == 'E';
    case RsaPss(h) => assert Name(m)[0] == 'P';
  }

  /** Why `ParseJwt` refused a token. The gate logs it and collapses every
      kind into the same client message. */
  datatype ParseError =
    | Malformed                    // not three decodable segments
    | MethodUnavailable(alg: string) // `alg` names no registered method
    | Unverifiable(reason: string)   // `keyFunc` refused the method
    | SignatureInvalid
    | ClaimsInvalid                  // `claims.Valid()` failed

  /** `ParseJwt`: `jwt.ParseWithClaims(token, &claims, keyFunc)` followed by
      `claims.Valid()`, at clock reading `now`. */
  function ParseJwt(j: Jose, v: JwtVerifier, token: string, now: int): (r: Result<Claims, ParseError>)
    ensures r.Success? ==>
      && j.decode(token).Some?
      && r.value == j.decode(token).value.claims
      && IsRsaPkcs1Alg(j.decode(token).value.alg)
      && j.verify(Lookup(j.decode(token).value.alg).value, v.pubKey, token)
      && j.valid(r.value, now)
    ensures j.decode(token).Some? && !IsRsaPkcs1Alg(j.decode(token).value.alg) ==>
      r.Failure? && (r.error.MethodUnavailable? || r.error.Unverifiable?)
  {
    match j.decode(token)
    case None => Failure(Malformed)
    case Some(d) =>
      match Lookup(d.alg)
      case None => Failure(MethodUnavailable(d.alg))
      case Some(m) =>
        match KeyFunc(v, d.alg, m)
        case Failure(reason) => Failure(Unverifiable(reason))
        case Success(key) =>
          if !j.verify(m, key, token) then Failure(SignatureInvalid)
          else if !j.valid(d.claims, now) then Failure(ClaimsInvalid)
          else Success(d.claims)
  }

  /** Converse of `ParseJwt`'s contract: a decodable RS-signed token whose
      signature checks under the configured key and whose claims are valid
      is accepted, with exactly its claims. */
  lemma {:induction false} ParseJwtAccepts(j: Jose, v: JwtVerifier, token: string, now: int, h: Hash, c: Claims)
    requires j.decode(token) == Some(DecodedToken(Name(Rsa(h)), c))
    requires j.verify(Rsa(h), v.pubKey, token)
    requires j.valid(c, now)
    ensures ParseJwt(j, v, token, now) == Success(c)
  {
    LookupName(Rsa(h));
  }

  /** The verifier as the gate sees it (the `JwtVerifier` interface) at clock `now`. */
  function Verifier(j: Jose, v: JwtVerifier, now: int): string -> Result<Claims, ParseError> {
    token => ParseJwt(j, v, token, now)
  }

  /** The loop of golang-jwt's `verifyAud`: whether some entry equals `cmp`,
      and the concatenation of all entries. */
  function AudienceScan(aud: seq<string>, cmp: string): (r: (bool, string))
    ensures r.0 <==> cmp in aud
    ensures r.1 == "" <==> forall i :: 0 <= i < |aud| ==> aud[i] == ""
  {
    if |aud| == 0 then (false, "")
    else
      var last := aud[|aud| - 1];
      var prev := AudienceScan(aud[..|aud| - 1], cmp);
      assert aud == aud[..|aud| - 1] + [last];
      (prev.0 || last == cmp, prev.1 + last)
  }

  /** `claims.VerifyAudience(cmp, true)` (section 4.1.3 of RFC 7519, as
      golang-jwt v4 implements it): `cmp` must be one of the audiences, and
      the audience claim must not consist of empty strings only. */
  function VerifyAudience(c: Claims, cmp: string): (ok: bool)
    ensures ok <==> cmp in c.aud && exists i :: 0 <= i < |c.aud| && c.aud[i] != ""
  {
    if |c.aud| == 0 then false
    else
      var scan := AudienceScan(c.aud, cmp);
      if |scan.1| == 0 then false else scan.0
  }

  /** `claims.VerifyIssuer(cmp, true)`: a missing issuer never matches. */
  function VerifyIssuer(c: Claims, cmp: string): (ok: bool)
    ensures ok ==> c.iss == cmp
    ensures cmp != "" ==> (ok <==> c.iss == cmp)
  {
    if c.iss == "" then false else c.iss == cmp
  }

  /** The message the gate returns on an audience mismatch. */
  function AudienceMessage(serviceName: string, aud: seq<string>): (m: string)
    ensures |m| > |AudienceHead| && m[..|AudienceHead|] == AudienceHead
    ensures m[|m| - 1] == ']'
  {
    var m := AudienceHead + Quote(serviceName) + ", got " + FormatStrings(aud);
    assert m == AudienceHead + (Quote(serviceName) + ", got " + FormatStrings(aud));
    assert m[..|AudienceHead|] == AudienceHead;
    m
  }

  const AudienceHead: string := "invalid audience: expected "

  /** Outcome of the middleware for one request. */
  datatype GateResult =
    /** `ctx.AbortWithStatusJSON(status, {"error": message})`. */
    | Rejected(status: int, message: string)
    /** `ctx.Set("principal", principal)`; the request proceeds. */
    | Admitted(principal: string)

  /** Reference reading of the accepted header shape: exactly the scheme
      `Bearer` (case-sensitive), one space, then the token (whatever it is). */
  function BearerToken(header: string): Option<string> {
    if |header| >= 7 && header[..7] == "Bearer " then Some(header[7..]) else None
  }

  /** Splitting at the first space and comparing the scheme with `Bearer`
      accepts exactly the headers `BearerToken` accepts, and hands on the
      same token. */
  lemma {:induction false} CutMatchesBearerToken(header: string)
    ensures var cut := Cut(header, ' ');
      && (cut.found && cut.before == "Bearer" <==> BearerToken(header).Some?)
      && (BearerToken(header).Some? ==> cut.after == BearerToken(header).value)
  {
    var cut := Cut(header, ' ');
    if BearerToken(header).Some? {
      assert header == "Bearer" + [' '] + header[7..];
      CutAtFirst("Bearer", ' ', header[7..]);
    }
  }

  /** `CheckAuth(verifier, serviceName)` applied to a request whose
      `Authorization` header is `header`. The checks run in the order
      header, format, token, audience, issuer; the first failure decides. */
  function CheckAuth(verifier: string -> Result<Claims, ParseError>, serviceName: string, header: string): (r: GateResult)
    ensures r.Rejected? ==> r.status == StatusUnauthorized
    ensures header == "" ==> r == Rejected(StatusUnauthorized, MsgNoHeader)
    ensures header != "" && BearerToken(header).None? ==> r == Rejected(StatusUnauthorized, MsgBadFormat)
    ensures BearerToken(header).Some? ==>
      var result := verifier(BearerToken(header).value);
      && (result.Failure? ==> r == Rejected(StatusUnauthorized, MsgBadToken))
      && (result.Success? && !VerifyAudience(result.value, serviceName) ==>
            r == Rejected(StatusUnauthorized, AudienceMessage(serviceName, result.value.aud)))
      && (result.Success? && VerifyAudience(result.value, serviceName) && !VerifyIssuer(result.value, Apr) ==>
            r == Rejected(StatusUnauthorized, MsgBadIssuer))
    ensures r.Admitted? <==>
      && BearerToken(header).Some?
      && verifier(BearerToken(header).value).Success?
      && VerifyAudience(verifier(BearerToken(header).value).value, serviceName)
      && VerifyIssuer(verifier(BearerToken(header).value).value, Apr)
    ensures r.Admitted? ==> r.principal == verifier(BearerToken(header).value).value.sub
  {
    if header == "" then Rejected(StatusUnauthorized, MsgNoHeader)
    else
      var cut := Cut(header, ' ');
      CutMatchesBearerToken(header);
      if !cut.found || cut.before != "Bearer" then Rejected(StatusUnauthorized, MsgBadFormat)
      else
        match verifier(cut.after)
        case Failure(_) => Rejected(StatusUnauthorized, MsgBadToken)
        case Success(claims) =>
          if !VerifyAudience(claims, serviceName) then
            Rejected(StatusUnauthorized, AudienceMessage(serviceName, claims.aud))
          else if !VerifyIssuer(claims, Apr) then
            Rejected(StatusUnauthorized, MsgBadIssuer)
          else
            Admitted(claims.sub)
  }

  /** The verifier is consulted only on the text after the first space of a
      well-formed header: two verifiers that agree there (or a header that
      never reaches them, such as an empty one) give the same outcome. */
  lemma GateConsultsVerifierOnlyOnToken(v1: string -> Result<Claims, ParseError>, v2: string -> Result<Claims, ParseError>, serviceName: string, header: string)
    requires BearerToken(header).Some? ==> v1(BearerToken(header).value) == v2(BearerToken(header).value)
    ensures CheckAuth(v1, serviceName, header) == CheckAuth(v2, serviceName, header)
  {
  }

  /** The scheme comparison is case-sensitive and there is no two-token
      check: "bearer x" is refused, while "Bearer a b" hands "a b" on and
      "Bearer " hands on the empty token. */
  lemma SchemeIsExact(verifier: string -> Result<Claims, ParseError>, serviceName: string, token: string)
    ensures CheckAuth(verifier, serviceName, "bearer " + token) == Rejected(StatusUnauthorized, MsgBadFormat)
    ensures CheckAuth(verifier, serviceName, "Token " + token) == Rejected(StatusUnauthorized, MsgBadFormat)
    ensures BearerToken("Bearer " + token) == Some(token)
  {
    assert ("Bearer " + token)[7..] == token;
  }

  /** A rejected audience is reported with the expected name and every
      audience the token carries, verbatim. */
  lemma {:induction false} AudienceMessageIsDiagnostic(serviceName: string, aud: seq<string>, k: nat)
    requires k < |aud|
    requires forall i :: 0 <= i < |serviceName| ==> ' ' <= serviceName[i] <= '~' && !NeedsEscape(serviceName[i])
    ensures Contains(AudienceMessage(serviceName, aud), serviceName)
    ensures Contains(AudienceMessage(serviceName, aud), aud[k])
  {
    var head := AudienceHead;
    var q := Quote(serviceName);
    ContainsSelf(serviceName);
    ContainsPrepend("\"", serviceName, serviceName);
    ContainsAppend("\"" + serviceName, "\"", serviceName);
    assert q == "\"" + serviceName + "\"";
    ContainsPrepend(head, q, serviceName);
    ContainsAppend(head + q, ", got ", serviceName);
    ContainsAppend(head + q + ", got ", FormatStrings(aud), serviceName);
    FormatStringsShowsElements(aud, k);
    ContainsPrepend(head + q + ", got ", FormatStrings(aud), aud[k]);
  }

  /** Algorithm pinning: a token whose header names anything but RS256,
      RS384 or RS512 is refused whatever the library's decoder and
      signature check would say, so it never gets past the gate. */
  lemma AlgorithmPinned(j: Jose, v: JwtVerifier, serviceName: string, token: string, now: int)
    requires j.decode(token).Some? && !IsRsaPkcs1Alg(j.decode(token).value.alg)
    ensures ParseJwt(j, v, token, now).Failure?
    ensures CheckAuth(Verifier(j, v, now), serviceName, "Bearer " + token) == Rejected(StatusUnauthorized, MsgBadToken)
  {
    assert BearerToken("Bearer " + token) == Some(token);
  }
}

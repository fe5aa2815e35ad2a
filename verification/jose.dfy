/** What the core uses of the golang-jwt (v4) library, kept abstract.
    - The registered claim set, the signing-method registry and RSA keys are plain data.
    - Signing, token decoding (segment split, base64url, JSON), signature checking and
      `RegisteredClaims.Valid()` are collaborators passed in as function values (`Jose`).
    - The library facts the proofs rely on are named predicates over a `Jose`. A lemma takes
      them as hypotheses; nothing assumes them globally. */
module Jose {
  import opened Wrappers
  import opened GoErrors

  /** `jwt.RegisteredClaims`; an absent `*NumericDate` is `None`, an absent
      string claim is `""`. Times are whole seconds. */
  datatype Claims = Claims(
    iss: string,
    sub: string,
    aud: seq<string>,
    exp: Option<int>,
    nbf: Option<int>,
    iat: Option<int>,
    jti: string)

  datatype Hash = SHA256 | SHA384 | SHA512

  /** The signing methods golang-jwt registers, by implementation type. */
  datatype SigningMethod =
    | MethodNone               // "none"
    | Hmac(hash: Hash)         // HS256, HS384, HS512
    | Rsa(hash: Hash)          // RS256, RS384, RS512: RSA PKCS#1 v1.5 (section 3.3 of RFC 7518)
    | Ecdsa(hash: Hash)        // ES256, ES384, ES512
    | RsaPss(hash: Hash)       // PS256, PS384, PS512
    | EdDsa                    // EdDSA

  function HashBits(h: Hash): string {
    match h
    case SHA256 => "256"
    case SHA384 => "384"
    case SHA512 => "512"
  }

  /** The `alg` header value of a method. */
  function Name(m: SigningMethod): string {
    match m
    case MethodNone => "none"
    case Hmac(h) => "HS" + HashBits(h)
    case Rsa(h) => "RS" + HashBits(h)
    case Ecdsa(h) => "ES" + HashBits(h)
    case RsaPss(h) => "PS" + HashBits(h)
    case EdDsa => "EdDSA"
  }

  function LookupHash(bits: string): Option<Hash> {
    if bits == "256" then Some(SHA256)
    else if bits == "384" then Some(SHA384)
    else if bits == "512" then Some(SHA512)
    else None
  }

  /** `jwt.GetSigningMethod(alg)`: the registry lookup by header name.
      Names are case-sensitive; an unregistered name is `None`. */
  function Lookup(alg: string): (r: Option<SigningMethod>)
    ensures r.Some? ==> Name(r.value) == alg
  {
    if alg == "none" then Some(MethodNone)
    else if alg == "EdDSA" then Some(EdDsa)
    else if |alg| != 5 then None
    else
      match LookupHash(alg[2..])
      case None => None
      case Some(h) =>
        assert alg == alg[..2] + alg[2..];
        var family := alg[..2];
        if family == "HS" then Some(Hmac(h))
        else if family == "RS" then Some(Rsa(h))
        else if family == "ES" then Some(Ecdsa(h))
        else if family == "PS" then Some(RsaPss(h))
        else None
  }

  /** The registry is a bijection between methods and their names. */
  lemma LookupName(m: SigningMethod)
    ensures Lookup(Name(m)) == Some(m)
  {
    match m
    case MethodNone =>
    case EdDsa =>
    case Hmac(h) => assert Name(m)[..2] == "HS" && Name(m)[2..] == HashBits(h);
    case Rsa(h) => assert Name(m)[..2] == "RS" && Name(m)[2..] == HashBits(h);
    case Ecdsa(h) => assert Name(m)[..2] == "ES" && Name(m)[2..] == HashBits(h);
    case RsaPss(h) => assert Name(m)[..2] == "PS" && Name(m)[2..] == HashBits(h);
  }

  /** An RSA private key; key material is out of scope, only identity matters. */
  datatype RsaPrivateKey = RsaPrivateKey(id: nat)
  datatype RsaPublicKey = RsaPublicKey(id: nat)

  /** `key.Public()`: the public half of a private key. */
  function Public(k: RsaPrivateKey): RsaPublicKey {
    RsaPublicKey(k.id)
  }

  /** A token's decoded header `alg` and claim set. */
  datatype DecodedToken = DecodedToken(alg: string, claims: Claims)

  /** The library primitives:
      - `sign(m, k, c)`: `jwt.NewWithClaims(m, c).SignedString(k)`;
      - `decode(t)`: split into three segments and decode header and claims (`None` when malformed);
      - `verify(m, p, t)`: `m.Verify(signing input of t, signature of t, p)`;
      - `valid(c, now)`: `c.Valid()` when the clock reads `now`. */
  datatype Jose = Jose(
    sign: (SigningMethod, RsaPrivateKey, Claims) -> Result<string, Error>,
    decode: string -> Option<DecodedToken>,
    verify: (SigningMethod, RsaPublicKey, string) -> bool,
    valid: (Claims, int) -> bool)

  /** Stated axiom: a token the library signs with key `k` under an RSA
      PKCS#1 v1.5 method decodes to the method's name and the signed claims,
      and verifies under the public half of `k`. */
  ghost predicate SignThenVerify(j: Jose) {
    forall m: SigningMethod, k: RsaPrivateKey, c: Claims :: m.Rsa? && j.sign(m, k, c).Success? ==>
      && j.decode(j.sign(m, k, c).value) == Some(DecodedToken(Name(m), c))
      && j.verify(m, Public(k), j.sign(m, k, c).value)
  }

  /** Stated assumption on `Valid()`: a claim set is valid at `now` when it
      has an expiry strictly after `now` and neither its issued-at nor its
      not-before time lies after `now`. */
  ghost predicate ValidBeforeExpiry(j: Jose) {
    forall c: Claims, now: int :: CurrentAt(c, now) ==> j.valid(c, now)
  }

  /** The claim set has an expiry strictly after `now`, and neither its
      issued-at nor its not-before time lies after `now`. */
  predicate CurrentAt(c: Claims, now: int) {
    && c.exp.Some? && now < c.exp.value
    && (c.iat.None? || c.iat.value <= now)
    && (c.nbf.None? || c.nbf.value <= now)
  }

  /** Stated assumption on `Valid()`, the other direction, used only for
      the expiry property: a claim set is invalid from its expiry on. */
  ghost predicate InvalidFromExpiry(j: Jose) {
    forall c: Claims, now: int :: c.exp.Some? && now >= c.exp.value ==> !j.valid(c, now)
  }

  /** Stated assumption (unforgeability, used only for the wrong-key
      property): a token signed with `k` does not verify under the public
      half of any other key. */
  ghost predicate KeyBound(j: Jose) {
    forall m: SigningMethod, k: RsaPrivateKey, k2: RsaPrivateKey, c: Claims :: m.Rsa? && k2 != k && j.sign(m, k, c).Success? ==>
      !j.verify(m, Public(k2), j.sign(m, k, c).value)
  }
}

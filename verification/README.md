# apr-backend: bearer-token gate, token issuance, login and company listing

This Dafny project models the authentication core of the APR (company register) backend, together with the pure decisions around login and company listing:

- **Gate.** The gin middleware `CheckAuth` decides, from the `Authorization` header alone, whether a request may proceed and with which principal. Its verifier (`keyFunc` + `ParseJwt`) admits only RSA PKCS#1 v1.5 tokens (RS256/RS384/RS512, section 3.3 of RFC 7518) signed with the configured key. Claims must be valid, the audience must contain the service name (section 4.1.3 of RFC 7519) and the issuer must be `"apr"`.
- **Issuer.** `GenerateAndSignJWT` builds a claim set with issuer `"apr"`, the given subject, one audience (`"apr"` by default), `iat = now` and `exp = now + 24h`. It always signs it with RS512. The generator's embedded verifier uses the public half of the generator's own key.
- **Login endpoints.** `Login` and `SSOLogin` map binding, credential and signing errors to status codes and choose the audience and subject of the issued token.
- **Auth service.** The password shape check `^.{12,72}$` and the credential check, whose guard is inverted (see Findings).
- **Company listing.** Query-parameter normalisation, the ORDER BY whitelist, and the statement text and bound parameters of the listing query. Also the error classification of `FindCompanies`/`SaveCompany` and the `FindOne` status mapping.
- **`ValidateSex`**, the `sex` field validator.

The cryptographic library and the database sit behind collaborator datatypes of function values:

- `Jose.Jose` holds `sign`, `decode`, `verify` and `valid`.
- `CompanyRepo.Db` holds `prepare`, `query` and `exec`.

The credential store and bcrypt are function parameters. The clock is an integer parameter `now`, in seconds. The library facts the proofs use are named predicates and appear only as lemma hypotheses:

- `Jose.SignThenVerify`: a token signed with key k decodes to its method name and claims, and verifies under the public half of k.
- `Jose.ValidBeforeExpiry`: claims are valid while `now < exp`, provided `iat` and `nbf` are not in the future.
- `Jose.InvalidFromExpiry`: claims are invalid from `exp` on. It is used only for the expiry property.
- `Jose.KeyBound`: a token does not verify under another key. It is used only for the wrong-key property.

Modules follow the source files:

| module | file |
|---|---|
| `JwtLib` | `client/jwtlib.go` |
| `AuthJwt` | `internal/auth/jwt.go` |
| `AuthController` | `internal/controllers/authController.go` |
| `AuthService` | `internal/services/authService.go` |
| `CompanyController` | `internal/controllers/companyController.go` |
| `CompanyRepo` | `internal/db/companyRepo.go` |
| `Model` | `internal/model` |

`GoStrconv`, `GoStrings` and `GoErrors` model the Go library behaviour the code relies on:

- `strconv.Atoi` accepts an optional sign followed by ASCII digits, and only values within int64.
- `strings.Cut` splits at the first separator.
- `==` on errors compares identity, while `errors.Is` follows `%w` wrapping.

`EndToEnd` relates issuance, login and the gate.

The snapshot does not type-check in several places. Each modelled function follows its own text, and the mismatches are left as they are. Those that touch modelled code:

- `Login` reads `creds.PIB`, which `CredentialsDto` does not declare. `Model.CredentialsDto` carries a `pib` field for it.
- `SSOLogin` passes the parsed integer where a string subject is expected. The model issues the integer's decimal form.
- `CheckCredentials` calls `FindOneCredentials`, which the repository interface does not declare. The lookup is a function parameter.
- `main.go:77` builds the auth service from the user repository (`NewUserRepo`), while `NewAuthService` takes a `CompanyRepository`. The model does not choose either: the credential lookup stays a parameter.
- The company service calls `comRepo.FindOne` (companyService.go:50) and `comRepo.LiquidateById` (companyService.go:32). `CompanyRepository` (companyRepo.go:19-22) declares neither. The lookup behind `CompanyController.FindOne` is therefore a function parameter.

Other mismatches, in code outside the model:

- The company service reads and writes `com.Password` (companyService.go:41, 45), a field `model.Company` does not have. It also passes a `*model.Company` to a `SaveCompany` that takes a value.
- `main.go:91` calls the two-argument `NewCompanyController` with one argument.

Points of the gate's behaviour that the model keeps as the code has them:

- The gate hands the verifier everything after the first space of the header. That text may be empty or contain further spaces.
- The gate admits all three RS algorithms: RS256, RS384 and RS512.
- The issuer is compared with the constant `"apr"`.
- The audience-mismatch message, naming both audiences, is sent to the client in the 401 body.

## Model

| member | source | states |
|---|---|---|
| `JwtLib.CheckAuth` | client/jwtlib.go:21-56 | An empty header gives 401 "Authorization header not provided". A header that does not start with exactly `Bearer ` gives 401 "invalid format for bearer token". A verifier error gives 401 "invalid token". A missing audience gives 401 with the audience message. A wrong issuer gives 401 "invalid issuer". The principal is set, to the token's subject, if and only if every check passed. |
| `JwtLib.CutMatchesBearerToken` | client/jwtlib.go:30-34 | Cutting at the first space and comparing the scheme with `Bearer` accepts exactly the headers that begin with `Bearer `. The verifier then receives everything after that first space. |
| `JwtLib.GateConsultsVerifierOnlyOnToken` | client/jwtlib.go:23-37 | The outcome depends on the verifier only through its answer for the text after `Bearer `. An empty or malformed header never reaches the verifier. |
| `JwtLib.SchemeIsExact` | client/jwtlib.go:30-34 | `bearer x` and `Token x` are refused as bad format (the scheme check is case-sensitive). `Bearer ` followed by any text, spaces included, hands that text on whole. |
| `JwtLib.KeyFunc` | client/jwtlib.go:92-97 | The configured public key is returned if and only if the header names RS256, RS384 or RS512. Otherwise the error is "Unexpected signing method: " followed by the alg. |
| `JwtLib.OnlyRsaNamesAreRsaPkcs1` | client/jwtlib.go:93 | The RS names belong to the RSA PKCS#1 v1.5 methods and to no other registered method (none, HS*, ES*, PS*, EdDSA). |
| `JwtLib.ParseJwt` | client/jwtlib.go:100-107 | Acceptance implies all of: the token decodes, its alg is RS256/384/512, its signature verifies under the verifier's key, and its claims are valid at `now`. The returned claims are the decoded ones. A decodable token with any other alg fails at the method lookup or at `keyFunc`. |
| `JwtLib.ParseJwtAccepts` | client/jwtlib.go:100-107 | Converse: a decodable RS token whose signature verifies and whose claims are valid is accepted, with exactly its claims. |
| `JwtLib.AlgorithmPinned` | client/jwtlib.go:92-107 | A token whose header names any non-RS algorithm gets the generic 401 "invalid token", whatever the decoder and signature check would say. |
| `JwtLib.AudienceScan` | client/jwtlib.go:44 | The audience loop finds `cmp` if and only if it is in the list. Its concatenation is empty if and only if every entry is empty. |
| `JwtLib.VerifyAudience` | client/jwtlib.go:44-48 | The audience check with `required = true` holds if and only if the service name is among the audiences and some audience is non-empty. |
| `JwtLib.VerifyIssuer` | client/jwtlib.go:50-53 | With the non-empty constant `"apr"`, the issuer check holds if and only if `iss` is exactly `"apr"`. |
| `JwtLib.AudienceMessage` | client/jwtlib.go:45 | The `%q`/`%v` message of an audience mismatch. Its contract fixes the leading text "invalid audience: expected " and the closing `]` of the audience list. The content is stated by `JwtLib.AudienceMessageIsDiagnostic`. |
| `JwtLib.AudienceMessageIsDiagnostic` | client/jwtlib.go:44-48 | The audience-mismatch message contains every audience of the token verbatim. It also contains the expected service name verbatim when that name is printable ASCII without `"` or `\`. |
| `JwtLib.NewVerifier` | client/jwtlib.go:84-86 | The verifier keeps the public key it is given. |
| `AuthJwt.NewJwtGenerator` | internal/auth/jwt.go:43-50 | The generator signs with the given key, names itself `"apr"`, and embeds a verifier for the public half of that same key. |
| `AuthJwt.TokenClaims` | internal/auth/jwt.go:59-74 | The claims have issuer `"apr"` and the username unchanged as subject. There is exactly one non-empty audience: the argument, or `"apr"` when it is empty. `iat = now` and `exp > iat`. The claims are current for exactly the 86400 seconds from `now`. |
| `AuthJwt.SignJwt` | internal/auth/jwt.go:76-83 | The claims are always signed with RS512 and the generator's key. A signing failure gives `""` and the library error wrapped as "Error signing token: ". Success gives the signed string and no error. |
| `AuthJwt.GenerateAndSignJWT` | internal/auth/jwt.go:59-74 | The token is the RS512 signature of `TokenClaims(username, audience, now)`. On failure it is `""`. |
| `AuthJwt.IssuedTokenVerifies` | internal/auth/jwt.go:59-83 | Under the sign/verify axiom, an issued token decodes to alg `RS512` with the built claims, and verifies under the generator's embedded verifier. |
| `EndToEnd.IssuedTokenParses` | internal/auth/jwt.go:59-83 | Within its lifetime, the generator's own verifier accepts an issued token with exactly its issued claims. |
| `EndToEnd.IssuedTokenPassesGate` | client/jwtlib.go:37-55 | Round trip: for times t in [now, now + 86400), `Bearer ` + a token issued for `(u, aud)` is admitted with principal u. The gate is configured for aud, or for `"apr"` when aud is empty. |
| `EndToEnd.ForeignAudienceRejected` | client/jwtlib.go:44-48 | A token issued for an audience X other than `"apr"` is refused by the `"apr"` gate at the audience step. The message names both `"apr"` and `[X]`. |
| `EndToEnd.ExpiredTokenRejected` | client/jwtlib.go:37-42 | From `exp` on, an issued token gets 401 "invalid token" at every gate. |
| `EndToEnd.OtherKeyRejected` | client/jwtlib.go:100-107 | A gate that holds the public half of a different key refuses the token with 401 "invalid token". |
| `EndToEnd.LoginTokenPassesGate` | internal/controllers/authController.go:58-65 | The token of a successful `Login` passes the `"apr"` gate, with the credentials' PIB as principal. |
| `EndToEnd.SSOTokenPassesServiceGate` | internal/controllers/authController.go:94-99 | An SSO token for a named service passes that service's gate, with the numeric principal as subject. |
| `EndToEnd.LoginAsWrittenIgnoresPassword` | internal/services/authService.go:35-38 | With the credential check as written, once the PIB is found, `Login` answers 200 whatever the password comparison says. |
| `EndToEnd.LoginRequiresPasswordMatch` | internal/services/authService.go:34-41 | With the corrected credential check, a 200 from `Login` implies both that the lookup succeeded and that the password matched the stored hash. |
| `AuthController.Login` | internal/controllers/authController.go:40-66 | A bind failure gives 500 with the bind error text, without aborting. A `CheckCredentials` error identical to `DatabaseError` gives an aborted 500 "Internal server error". Any other error gives an aborted 401 "Invalid credentials". A signing failure gives 500. 200 happens exactly when the token for `(creds.PIB, "apr")` is signed, and the body then carries that token. |
| `AuthController.LoginIgnoresService` | internal/controllers/authController.go:58 | The `Service` field of the credentials never changes the response: the audience is always `"apr"`. |
| `AuthController.SSOLogin` | internal/controllers/authController.go:86-100 | A principal that `Atoi` rejects gives an aborted 400 "Invalid JWT". A signing failure gives an aborted 500 "Couldn't generate JWT". Otherwise the response is 200 with the token for the principal's decimal form, whose audience is the `:service` parameter or `"apr"` when it is empty. |
| `AuthController.SSOLoginWithoutPrincipal` | internal/controllers/authController.go:87-93 | An absent principal reads as `""` and gives 400, with no token issued. |
| `AuthController.SSOSubjectIsPrincipal` | internal/controllers/authController.go:89-94 | For a principal that is the decimal form of an int64, parsing and rendering give the principal back. A 200 from `SSOLogin` then carries the token signed for claims whose subject is exactly that principal. |
| `AuthService.DotRepeatLanguage` | internal/services/authService.go:12 | The anchored RE2 pattern `^.{lo,hi}$` matches exactly the texts of lo to hi characters that contain no newline. |
| `AuthService.ValidatePassword` | internal/services/authService.go:17-19 | Holds if and only if the password has 12 to 72 characters and no `'\n'`. |
| `AuthService.PasswordBoundaries` | internal/services/authService.go:12 | 11 and 73 characters are refused. 12 and 72 are accepted. A trailing newline is refused. |
| `AuthService.CheckCredentialsAsWritten` | internal/services/authService.go:34-41 | As written: a successful lookup returns nil, with no comparison. Any lookup result other than the bare `DatabaseError` is returned unchanged. Only the bare `DatabaseError` reaches the bcrypt comparison, and that comparison's result is returned. |
| `AuthService.WrappedDatabaseErrorPassesThrough` | internal/services/authService.go:36-37 | A wrapped `DatabaseError` fails the identity comparison and is returned directly. |
| `AuthService.AsWrittenAcceptsWrongPassword` | internal/services/authService.go:35-38 | Concrete case: the stored hash does not match, yet the check as written returns nil and the corrected one returns an error. |
| `AuthService.CheckCredentials` | internal/services/authService.go:34-41 | Corrected: the result is nil if and only if the lookup succeeded and the password matched. A lookup error is returned unchanged. |
| `AuthService.VersionsAgreeOnOtherErrors` | internal/services/authService.go:35-37 | Both versions return a lookup error other than the bare `DatabaseError` unchanged. |
| `CompanyController.Page` | internal/controllers/companyController.go:152-160 | `page` is 0 when it is absent, not an int64, or negative. Otherwise it is the parsed value, so it is always a non-negative int64. |
| `CompanyController.ListingFilter` | internal/controllers/companyController.go:151-181 | `order` defaults to `"PIB"` only when absent, and is otherwise passed verbatim, even when empty. `Asc` is false if and only if `asc` is exactly `"false"`. The three filters default to `""`. |
| `CompanyController.ListingOffsetIsPageAligned` | internal/controllers/companyController.go:157-158 | Corrected offset (see Findings): for any request, the offset is a non-negative multiple of 50. The program's own offset can be negative. |
| `CompanyController.ListingQueryIsSafe` | internal/controllers/companyController.go:174-181 | Corrected statement (see Findings): for any request with a whitelisted order, the statement is the fixed prefix followed only by letters, digits, spaces and `;`. For the program's own statement, see `CompanyRepo.QueryTextAsWrittenIsSafe` and `CompanyRepo.QueryTextAsWrittenOverflows`. |
| `CompanyController.ListingResponse` | internal/controllers/companyController.go:183-200 | Every error (database, invalid filter, any other) and a recovered panic give an aborted bare 500. Success gives 200 with the list. |
| `CompanyController.FindCompanies` | internal/controllers/companyController.go:151-200 | The handler over the repository as written, with the wrapped offset and a panic on a failed query. The answer is 200 if and only if the order is whitelisted, the statement prepares, the query with the six bound filters returns rows, and every row scans. The body is then exactly those rows' companies. Every other outcome, including the recovered panic, is an aborted bare 500. |
| `CompanyController.FindCompaniesCorrected` | internal/controllers/companyController.go:151-200 | The same handler over the corrected repository (see Findings). It gives the same answers for the statement with the exact offset, and a failed query also gives 500. |
| `CompanyController.FindOne` | internal/controllers/companyController.go:208-226 | A non-integer pib gives 400, with the raw parameter in the message. An error that is `NoSuchPibError` gives 404. Any other error gives 500. Otherwise the response is 200 with the company. |
| `CompanyController.FindOneNamesLookedUpPib` | internal/controllers/companyController.go:210-218 | For a PIB in canonical decimal form within int64, the handler looks up the number it denotes. The 404 message names that number's decimal rendering, so the PIB reported missing is the one looked up. |
| `CompanyRepo.FindColumn` | internal/db/companyRepo.go:30-35 | The linear scan finds a name if and only if it is in the list. |
| `CompanyRepo.ValidateColumn` | internal/db/companyRepo.go:28-36 | Holds if and only if the name is exactly one of naziv, vlasnik, PIB, maticniBroj, mesto, sediste (case-sensitive). |
| `CompanyRepo.ColumnNamesAreSafe` | internal/db/companyRepo.go:29 | Every whitelisted name consists of SQL-safe characters. |
| `CompanyRepo.QueryText` | internal/db/companyRepo.go:40-58 | The listing statement: the fixed prefix, then ` <column> ASC|DESC LIMIT 50 OFFSET <n>;`. Its contract says it begins with the prefix and ends with `;`. Its content is stated by `CompanyRepo.QueryTextIsSafe` and `CompanyRepo.QueryTextAsWrittenIsSafe`. |
| `CompanyRepo.ListingQueryAsWritten` | internal/db/companyRepo.go:40-58 | The statement the program prepares for a filter, with the wrapped offset. It begins with the fixed prefix, and it equals the corrected statement whenever `page*50` fits in int64. Further properties are in `CompanyRepo.QueryTextAsWrittenIsSafe`, `CompanyRepo.QueryTextAsWrittenOverflows` and `CompanyRepo.FilterStringsNotInText`. |
| `CompanyRepo.QueryTextIsSafe` | internal/db/companyRepo.go:40-58 | After the fixed prefix, the statement holds only the order column, `ASC`/`DESC`, `LIMIT 50 OFFSET`, the offset digits and `;`, all letters, digits and spaces. This is stated for the corrected offset (see Findings). |
| `CompanyRepo.QueryTextAsWrittenIsSafe` | internal/db/companyRepo.go:40-58 | The statement the program prepares has the same safe shape whenever `page*50` fits in int64. |
| `CompanyRepo.NegativeOffsetLeavesDigitAlphabet` | internal/db/companyRepo.go:58 | A negative offset puts a `-` into the statement text, so the text after the prefix is no longer letters, digits, spaces and `;`. The database then receives a malformed `OFFSET`. |
| `CompanyRepo.QueryTextAsWrittenOverflows` | internal/db/companyRepo.go:58 | For page 184467440737095517, the statement the program prepares carries a `-` after the prefix. |
| `CompanyRepo.FilterStringsNotInText` | internal/db/companyRepo.go:43-65 | Neither the statement the program prepares nor the corrected one depends on the three filter strings. They are bound twice each, in the order delatnost, sediste, mesto. |
| `CompanyRepo.QueryParams` | internal/db/companyRepo.go:65 | Six bound parameters: delatnost, delatnost, sediste, sediste, mesto, mesto. |
| `CompanyRepo.OffsetAsWritten` | internal/db/companyRepo.go:58 | The program's offset: within int64, congruent to `page*50` modulo 2^64, and equal to it whenever it fits. The wrap is exhibited by `CompanyRepo.OffsetOverflows`. |
| `CompanyRepo.Offset` | internal/db/companyRepo.go:58 | Corrected offset: for a non-negative page, a non-negative multiple of 50 that is the first row of that page. |
| `CompanyRepo.OffsetsAgreeWithoutOverflow` | internal/db/companyRepo.go:58 | The offset as written and the corrected offset agree whenever `page*50` fits in int64. |
| `CompanyRepo.OffsetOverflows` | internal/db/companyRepo.go:58 | Page 184467440737095517, which the controller accepts, gives `OFFSET -9223372036854775766` as written. |
| `CompanyRepo.OffsetWrapsToOtherPage` | internal/db/companyRepo.go:58 | Page 368934881474191033, which the controller accepts, gives `OFFSET 34` as written. The statement is well-formed, but it returns rows 34 to 83 instead of failing. |
| `CompanyRepo.ScanOutcomeComplete` | internal/db/companyRepo.go:67-76 | The scan reports no error if and only if every row scans. The companies are then exactly the rows' companies. |
| `CompanyRepo.ScanRows` | internal/db/companyRepo.go:67-76 | The scan loop returns every company up to the first row that fails to scan. That failure becomes an error wrapping `DatabaseError`. With no failure, every row is returned. |
| `CompanyRepo.FindCompaniesAsWritten` | internal/db/companyRepo.go:39-77 | A non-whitelisted order gives an empty list and an error wrapping `InvalidFilter`, before anything is prepared. A prepare failure gives the bare `DatabaseError`. A failed query panics. Otherwise the result is the scan of the rows. |
| `CompanyRepo.FindCompanies` | internal/db/companyRepo.go:39-77 | Corrected: it never panics. A failed query gives `DatabaseError`. Every error is an invalid filter or a database error, and it is an invalid filter exactly when the order is not whitelisted. |
| `CompanyRepo.InsertStatement` | internal/db/companyRepo.go:81-83 | A definition (a constant, with no contract). It is the insert with the columns of `CompanyRepo.InsertColumns` joined by ", " and nine placeholders. `CompanyRepo.InsertParams` is stated against the same column constant. |
| `CompanyRepo.InsertParams` | internal/db/companyRepo.go:81-90 | One bound value per column of the insert statement, in the statement's column order. Value i is the field of the company that column i holds, as the listing query reads it back (companyRepo.go:40, 70). The territorial unit is stored by its code. |
| `CompanyRepo.SaveCompany` | internal/db/companyRepo.go:80-96 | Success happens if and only if both prepare and exec succeed. Every failure is an error that `errors.Is` recognises as `DatabaseError` but `==` does not. |
| `Model.ValidateSex` | internal/model/validation.go:10-16 | Accepts a value if and only if it is the name of one of the two `Sex` values, `"MALE"` or `"FEMALE"`. |
| `Model.ValidateSexExamples` | internal/model/validation.go:5-16 | `"MALE"` and `"FEMALE"` are accepted. `""`, `"male"`, `"Male"`, `" MALE"`, `"female"` and `"FEMALE "` are refused. |
| `GoStrconv.Atoi` | internal/controllers/companyController.go:156 | `strconv.Atoi` succeeds if and only if the text is an optional sign followed by one or more ASCII digits denoting an int64. The result is that value. |
| `GoStrconv.AtoiItoa` | internal/controllers/authController.go:89 | Every int64 rendered in decimal parses back to itself. |
| `GoStrconv.ItoaOfDigits` | internal/controllers/companyController.go:210 | A digit string without a redundant leading zero is the rendering of its own value. |
| `GoStrconv.AtoiOfCanonical` | internal/controllers/companyController.go:210 | A canonical decimal within int64 parses to its value, which renders back to the same text. |
| `GoStrconv.NatDigits` | internal/db/companyRepo.go:58 | The `%d` rendering of a natural number is a non-empty digit string denoting it, without a leading zero. |
| `GoStrconv.Wrap64` | internal/db/companyRepo.go:58 | Go's int multiplication result: within int64, congruent modulo 2^64, and unchanged when already in range. |
| `GoStrings.Cut` | client/jwtlib.go:30 | `strings.Cut` finds the separator if and only if it occurs. The text is then before + separator + after, and before contains no separator. |
| `GoStrings.CutAtFirst` | client/jwtlib.go:30 | Cutting splits at the first separator and returns all the rest, further separators included. |
| `GoStrings.FormatStringsShowsElements` | client/jwtlib.go:45 | `%v` of a string list shows every element verbatim. |
| `GoErrors.WrappedSentinelIsNotIdentical` | internal/db/companyRepo.go:86 | `fmt.Errorf("%w", sentinel)` is never identical to the sentinel, yet `errors.Is` still recognises it. |
| `Jose.LookupName` | client/jwtlib.go:93 | The signing-method registry maps each method's name back to that method. |

## Left out

- RSA key generation and PEM file reading (`ReadRSAPrivateKeyFromFile`, `ReadRSAPublicKeyFromFile`) are I/O. Keys are identities, and the public half of a key is a function of it.
- The library internals are not modelled: RS512 signing itself, token segment splitting, base64url and JSON, and `RegisteredClaims.Valid`. They are the `Jose` collaborators, and the facts used about them are the named predicates above. The library runs `Valid()` once inside `ParseWithClaims` and `ParseJwt` calls it again; the model evaluates it once, after the signature check, since both give the same verdict at one clock reading.
- `GenerateAndSignJWT` reads the clock twice, `exp` first. The model uses one reading `now` for both.
- SQL execution, row scanning and result sizes belong to the database. Only the statement text, the bound parameters and the handling of each database answer are modelled. The `%#v` rendering of a partly scanned company is an opaque string. Unclosed rows and statements are not modelled.
- bcrypt hashing and comparison are an opaque function returning an optional error.
- gin routing, server start and shutdown, signal handling and logging (`main.go`, every `log.Print`) are plumbing. The only piece kept is that a recovered panic becomes a bare 500.
- `CreateCompany` and the validator-error mapping are left out: their semantics live in the struct-tag validator, and `CompanyErrors`/`UserErrors` are defined there.
- The `NewAuthController`/`NewCompanyController` constructors, the company service pass-throughs, and the NSTJ, person and user repositories are thin wrappers.
- Strings are sequences of Unicode code points (Go runes). Invalid UTF-8 bytes, each of which RE2 reads as one character, are not modelled.
- `GoStrings.Escape`: `%q` is modelled for quote, backslash, `\n`, `\t` and `\r` only. The other control-character and non-printable escapes are not modelled, so `JwtLib.AudienceMessageIsDiagnostic` requires the service name to be printable ASCII (space to `~`) without `"` or `\`. There `%q` leaves every character as it is.
- `JwtLib.CheckAuth`: the gin context is reduced to the header it reads and the principal it stores. Keys other callers set on the context are not modelled.

## Findings

| source | as written | input that shows it | evidently intended | confidence | as-written member | corrected member |
|---|---|---|---|---|---|---|
| internal/services/authService.go:36 | `if err != db.DatabaseError { return err }` returns nil for every successful lookup, before any password comparison. | A PIB that exists, with any wrong password: `Login` answers 200 with a token. | Return a lookup error if there is one. Otherwise return the bcrypt comparison. | high; not executed | `AuthService.CheckCredentialsAsWritten`, `AuthService.AsWrittenAcceptsWrongPassword`, `EndToEnd.LoginAsWrittenIgnoresPassword` | `AuthService.CheckCredentials`, `EndToEnd.LoginRequiresPasswordMatch` |
| internal/db/companyRepo.go:58 | `filter.Page*50` is int64 multiplication, which wraps around. | `?page=184467440737095517` passes the controller's checks and yields `OFFSET -9223372036854775766`. `?page=368934881474191033` yields `OFFSET 34`, so rows 34 to 83 are served silently. | The offset is the non-negative `page * 50`. | medium; not executed | `CompanyRepo.OffsetAsWritten`, `CompanyRepo.OffsetOverflows`, `CompanyRepo.OffsetWrapsToOtherPage`, `CompanyRepo.QueryTextAsWrittenOverflows` | `CompanyRepo.Offset`, `CompanyController.ListingOffsetIsPageAligned`, `CompanyRepo.QueryTextIsSafe`, `CompanyController.ListingQueryIsSafe` |
| internal/db/companyRepo.go:65-68 | The error of `stmt.Query` is discarded. On failure `rows` is nil and `rows.Next()` panics. | The prepare succeeds and the query then fails, e.g. the connection drops. | Report the failure as `DatabaseError`, as a failed prepare is reported. | high; not executed | `CompanyRepo.FindCompaniesAsWritten`, `CompanyController.FindCompanies` | `CompanyRepo.FindCompanies`, `CompanyController.FindCompaniesCorrected` |

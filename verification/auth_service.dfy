/** internal/services/authService.go: the password shape check and the
    credential check behind login. The credential store lookup and bcrypt's
    hash comparison are collaborators passed in as functions. */
module AuthService {
  import opened Wrappers
  import opened GoErrors
  import opened Model

  const MinPasswordLength: nat := 12
  const MaxPasswordLength: nat := 72

  /** Whether the anchored RE2 pattern `^.{lo,hi}$` matches `s`. In RE2 `.`
      matches any character except a newline, and `$` (without the `m`
      flag) matches only at the end of the text. Every `.` consumes exactly
      one character, so matching proceeds one character at a time. */
  function MatchDotRepeat(s: string, lo: nat, hi: nat): bool
    decreases |s|
  {
    if |s| == 0 then lo == 0
    else hi > 0 && s[0] != '\n' && MatchDotRepeat(s[1..], if lo > 0 then lo - 1 else 0, hi - 1)
  }

  /** The language of `^.{lo,hi}$`: between `lo` and `hi` characters, none
      of them a newline. */
  lemma {:induction false} DotRepeatLanguage(s: string, lo: nat, hi: nat)
    ensures MatchDotRepeat(s, lo, hi) <==> lo <= |s| <= hi && '\n' !in s
    decreases |s|
  {
    if |s| > 0 {
      DotRepeatLanguage(s[1..], if lo > 0 then lo - 1 else 0, if hi > 0 then hi - 1 else 0);
      assert s == [s[0]] + s[1..];
    }
  }

  /** `validatePassword`: the text matches `^.{12,72}$`. */
  function ValidatePassword(pass: string): (ok: bool)
    ensures ok <==> MinPasswordLength <= |pass| <= MaxPasswordLength && '\n' !in pass
  {
    DotRepeatLanguage(pass, MinPasswordLength, MaxPasswordLength);
    MatchDotRepeat(pass, MinPasswordLength, MaxPasswordLength)
  }

  /** Boundary lengths: 11 and 73 characters are refused, 12 and 72
      accepted; a trailing newline is refused even at a valid length. */
  lemma PasswordBoundaries(c: char)
    requires c != '\n'
    ensures !ValidatePassword(seq(11, _ => c))
    ensures ValidatePassword(seq(12, _ => c))
    ensures ValidatePassword(seq(72, _ => c))
    ensures !ValidatePassword(seq(73, _ => c))
    ensures !ValidatePassword(seq(12, _ => c) + "\n")
  {
    assert (seq(12, _ => c) + "\n")[12] == '\n';
  }

  /** What the credential store returns: the saved password hash (the zero
      value when the lookup failed) and the lookup error. */
  datatype SavedCredentials = SavedCredentials(password: string)
  datatype CredentialLookup = CredentialLookup(saved: SavedCredentials, err: Option<Error>)

  /** `CheckCredentials` exactly as written: the guard `err != db.DatabaseError`
      returns every other lookup result unchanged, nil included, and only a
      lookup that failed with the bare `DatabaseError` reaches the bcrypt
      comparison. */
  function CheckCredentialsAsWritten(
    creds: CredentialsDto,
    findOneCredentials: string -> CredentialLookup,
    compareHashAndPassword: (string, string) -> Option<Error>): (r: Option<Error>)
    ensures findOneCredentials(creds.pib).err.None? ==> r.None?
    ensures findOneCredentials(creds.pib).err != Some(DatabaseError) ==> r == findOneCredentials(creds.pib).err
    ensures findOneCredentials(creds.pib).err == Some(DatabaseError) ==>
      r == compareHashAndPassword(findOneCredentials(creds.pib).saved.password, creds.password)
  {
    var lookup := findOneCredentials(creds.pib);
    if lookup.err != Some(DatabaseError) then lookup.err
    else compareHashAndPassword(lookup.saved.password, creds.password)
  }

  /** `CheckCredentials` as evidently intended: a lookup error is returned
      as is, and a successful lookup is followed by the password comparison. */
  function CheckCredentials(
    creds: CredentialsDto,
    findOneCredentials: string -> CredentialLookup,
    compareHashAndPassword: (string, string) -> Option<Error>): (r: Option<Error>)
    ensures r.None? <==>
      && findOneCredentials(creds.pib).err.None?
      && compareHashAndPassword(findOneCredentials(creds.pib).saved.password, creds.password).None?
    ensures findOneCredentials(creds.pib).err.Some? ==> r == findOneCredentials(creds.pib).err
  {
    var lookup := findOneCredentials(creds.pib);
    if lookup.err.Some? then lookup.err
    else compareHashAndPassword(lookup.saved.password, creds.password)
  }

  /** The discrepancy on a concrete input: the stored hash does not match
      the password given, yet the check as written reports success, while
      the intended check refuses. */
  lemma AsWrittenAcceptsWrongPassword()
    ensures var creds := CredentialsDto("owner", "not-the-password", "", "101");
      var find := (pib: string) => CredentialLookup(SavedCredentials("$2a$10$hash-of-another-password"), None);
      var compare := (hash: string, pass: string) => Some(Opaque("crypto/bcrypt: hashedPassword is not the hash of the given password"));
      && CheckCredentialsAsWritten(creds, find, compare) == None
      && CheckCredentials(creds, find, compare).Some?
  {
  }

  /** The identity comparison does not see through wrapping: a lookup that
      fails with a wrapped `DatabaseError` is returned as is, without a
      password comparison. */
  lemma WrappedDatabaseErrorPassesThrough(
    creds: CredentialsDto,
    findOneCredentials: string -> CredentialLookup,
    compareHashAndPassword: (string, string) -> Option<Error>,
    before: string, after: string)
    requires findOneCredentials(creds.pib).err == Some(Errorf(before, DatabaseError, after))
    ensures CheckCredentialsAsWritten(creds, findOneCredentials, compareHashAndPassword)
         == Some(Wrapped(before, DatabaseError, after))
  {
  }

  /** The two versions differ only where a lookup succeeds or fails with
      the bare `DatabaseError`; every other lookup error passes through both. */
  lemma {:induction false} VersionsAgreeOnOtherErrors(
    creds: CredentialsDto,
    findOneCredentials: string -> CredentialLookup,
    compareHashAndPassword: (string, string) -> Option<Error>)
    requires findOneCredentials(creds.pib).err.Some?
    requires findOneCredentials(creds.pib).err != Some(DatabaseError)
    ensures CheckCredentialsAsWritten(creds, findOneCredentials, compareHashAndPassword)
         == CheckCredentials(creds, findOneCredentials, compareHashAndPassword)
  {
  }
}

/** The parts of Go's `strconv` package the core relies on:
    `Atoi` (used for the `page` query parameter, the `:pib` path parameter
    and the SSO principal) and `Itoa`-style decimal rendering (used by
    `fmt`'s `%d` verb).  Go's `int` is 64 bits wide on the server, so
    `Atoi` rejects values outside the int64 range and multiplication wraps. */
module GoStrconv {
  import opened Wrappers

  const MinInt64: int := -0x8000_0000_0000_0000
  const MaxInt64: int := 0x7fff_ffff_ffff_ffff

  predicate InInt64(x: int) {
    MinInt64 <= x <= MaxInt64
  }

  /** Two's-complement wrap-around of a mathematical integer into int64,
      as Go's `*` on `int` does silently. */
  function Wrap64(x: int): (r: int)
    ensures InInt64(r)
    ensures (x - r) % 0x1_0000_0000_0000_0000 == 0
    ensures InInt64(x) ==> r == x
  {
    var m := x % 0x1_0000_0000_0000_0000;
    if m <= MaxInt64 then m else m - 0x1_0000_0000_0000_0000
  }

  predicate IsDigit(c: char) {
    '0' <= c <= '9'
  }

  predicate AllDigits(s: string) {
    forall i :: 0 <= i < |s| ==> IsDigit(s[i])
  }

  /** Value of a string of decimal digits, most significant first. */
  function DigitsValue(s: string): nat
    requires AllDigits(s)
  {
    if |s| == 0 then 0
    else DigitsValue(s[..|s| - 1]) * 10 + (s[|s| - 1] as int - '0' as int)
  }

  /** The accepted shape of `strconv.Atoi` with base 10: an optional sign
      followed by at least one ASCII digit, nothing else (no spaces, no
      underscores). */
  predicate DecimalSyntax(s: string) {
    if |s| > 0 && (s[0] == '+' || s[0] == '-') then |s| > 1 && AllDigits(s[1..])
    else |s| > 0 && AllDigits(s)
  }

  /** `strconv.Atoi(s)`: `None` stands for a non-nil error (syntax or range). */
  function Atoi(s: string): (r: Option<int>)
    ensures r.Some? <==> DecimalSyntax(s) && InInt64(SignedValue(s))
    ensures r.Some? ==> r.value == SignedValue(s)
  {
    if |s| == 0 then None
    else
      var negative := s[0] == '-';
      var digits := if s[0] == '+' || s[0] == '-' then s[1..] else s;
      if |digits| == 0 || !AllDigits(digits) then None
      else
        var v: int := if negative then -(DigitsValue(digits) as int) else DigitsValue(digits);
        if InInt64(v) then Some(v) else None
  }

  /** The integer a syntactically valid decimal denotes, before the range check. */
  function SignedValue(s: string): int
  {
    if !DecimalSyntax(s) then 0
    else if s[0] == '-' then -(DigitsValue(s[1..]) as int)
    else if s[0] == '+' then DigitsValue(s[1..])
    else DigitsValue(s)
  }

  function DigitChar(d: nat): (c: char)
    requires d < 10
    ensures IsDigit(c) && c as int - '0' as int == d
  {
    ('0' as int + d) as char
  }

  /** Canonical decimal digits of a natural number: no leading zero. */
  function NatDigits(n: nat): (s: string)
    ensures |s| > 0 && AllDigits(s)
    ensures DigitsValue(s) == n
    ensures s[0] == '0' ==> n == 0
    decreases n
  {
    if n < 10 then [DigitChar(n)]
    else
      var prefix := NatDigits(n / 10);
      var s := prefix + [DigitChar(n % 10)];
      assert s[..|s| - 1] == prefix;
      s
  }

  /** `strconv.Itoa(n)`, equivalently `fmt.Sprintf("%d", n)`. */
  function Itoa(n: int): (s: string)
    ensures |s| > 0
    ensures n >= 0 ==> AllDigits(s)
    ensures n < 0 ==> s[0] == '-' && AllDigits(s[1..])
  {
    if n < 0 then "-" + NatDigits(-n) else NatDigits(n)
  }

  /** Round trip: every int64 survives rendering and parsing back. */
  lemma {:induction false} AtoiItoa(n: int)
    requires InInt64(n)
    ensures Atoi(Itoa(n)) == Some(n)
  {
    var s := Itoa(n);
    if n < 0 {
      assert s[1..] == NatDigits(-n);
      assert s[0] == '-';
      assert DecimalSyntax(s);
      assert SignedValue(s) == n;
    } else {
      var d := NatDigits(n);
      assert s == d;
      assert d[0] != '+' && d[0] != '-' by { assert IsDigit(d[0]); }
      assert DecimalSyntax(s);
      assert SignedValue(s) == n;
    }
  }

  /** The converse round trip on canonical inputs: a parsed number renders
      back to the text it came from exactly when that text has no sign
      other than a minus and no redundant leading zero. */
  lemma {:induction false} ItoaOfDigits(s: string)
    requires |s| > 0 && AllDigits(s) && (s[0] == '0' ==> |s| == 1)
    ensures NatDigits(DigitsValue(s)) == s
    decreases |s|
  {
    if |s| == 1 {
      assert DigitsValue(s) == DigitsValue(s[..0]) * 10 + (s[0] as int - '0' as int);
    } else {
      var p := s[..|s| - 1];
      assert AllDigits(p);
      assert p[0] == s[0];
      ItoaOfDigits(p);
      var v := DigitsValue(s);
      var d := s[|s| - 1] as int - '0' as int;
      assert v == DigitsValue(p) * 10 + d;
      DigitsValuePositive(p);
      assert v / 10 == DigitsValue(p) && v % 10 == d;
      assert NatDigits(v) == NatDigits(v / 10) + [DigitChar(v % 10)];
      assert s == p + [s[|s| - 1]];
    }
  }

  /** A decimal in the form `Itoa` writes for a natural number: digits only,
      no redundant leading zero. */
  predicate CanonicalDecimal(s: string) {
    |s| > 0 && AllDigits(s) && (s[0] == '0' ==> |s| == 1)
  }

  /** A canonical decimal within int64 parses to its value, and that value
      renders back to the same text. */
  lemma {:induction false} AtoiOfCanonical(s: string)
    requires CanonicalDecimal(s) && DigitsValue(s) <= MaxInt64
    ensures Atoi(s) == Some(DigitsValue(s))
    ensures Itoa(DigitsValue(s)) == s
  {
    assert s[0] != '+' && s[0] != '-';
    ItoaOfDigits(s);
  }

  /** A digit string that does not start with '0' denotes a number of at
      least one digit's weight, so it is at least 1. */
  lemma {:induction false} DigitsValuePositive(s: string)
    requires |s| > 0 && AllDigits(s) && s[0] != '0'
    ensures DigitsValue(s) >= 1
    decreases |s|
  {
    if |s| > 1 {
      var p := s[..|s| - 1];
      assert p[0] == s[0];
      DigitsValuePositive(p);
    }
  }
}

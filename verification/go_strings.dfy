/** The parts of Go's `strings` and `fmt` packages the gate depends on:
    `strings.Cut` on a one-character separator, the `%q` and `%v` renderings
    used in the audience error message, and a substring relation to state
    what such messages contain. */
module GoStrings {
  import opened Wrappers

  /** Position of the first occurrence of `c` in `s`. */
  function IndexOf(s: string, c: char): (r: Option<nat>)
    ensures r.None? <==> c !in s
    ensures r.Some? ==> r.value < |s| && s[r.value] == c && c !in s[..r.value]
  {
    if |s| == 0 then None
    else if s[0] == c then Some(0)
    else
      match IndexOf(s[1..], c)
      case None => None
      case Some(i) =>
        assert s[..i + 1] == [s[0]] + s[1..][..i];
        Some(i + 1)
  }

  datatype CutResult = CutResult(before: string, after: string, found: bool)

  /** `strings.Cut(s, sep)`: split around the FIRST separator only. */
  function Cut(s: string, sep: char): (r: CutResult)
    ensures r.found <==> sep in s
    ensures r.found ==> s == r.before + [sep] + r.after && sep !in r.before
    ensures !r.found ==> r.before == s && r.after == ""
  {
    match IndexOf(s, sep)
    case None => CutResult(s, "", false)
    case Some(i) =>
      assert s == s[..i] + [sep] + s[i + 1..];
      CutResult(s[..i], s[i + 1..], true)
  }

  /** Cutting is determined by the first separator: whatever follows it,
      spaces included, is returned whole as the second part. */
  lemma {:induction false} CutAtFirst(prefix: string, sep: char, rest: string)
    requires sep !in prefix
    ensures Cut(prefix + [sep] + rest, sep) == CutResult(prefix, rest, true)
  {
    var s := prefix + [sep] + rest;
    assert s[|prefix|] == sep;
    var r := Cut(s, sep);
    assert r.before == s[..|prefix|] == prefix;
    assert r.after == s[|prefix| + 1..] == rest;
  }

  /** `t` occurs in `s` starting at index `i`. */
  predicate OccursAt(s: string, t: string, i: int) {
    0 <= i && i + |t| <= |s| && s[i..i + |t|] == t
  }

  /** `strings.Contains(s, t)`. */
  predicate Contains(s: string, t: string) {
    exists i | 0 <= i <= |s| :: OccursAt(s, t, i)
  }

  lemma ContainsPrepend(before: string, s: string, t: string)
    requires Contains(s, t)
    ensures Contains(before + s, t)
  {
    var i: int :| 0 <= i <= |s| && OccursAt(s, t, i);
    assert (before + s)[|before| + i..|before| + i + |t|] == s[i..i + |t|];
    assert OccursAt(before + s, t, |before| + i);
  }

  lemma ContainsAppend(s: string, after: string, t: string)
    requires Contains(s, t)
    ensures Contains(s + after, t)
  {
    var i: int :| 0 <= i <= |s| && OccursAt(s, t, i);
    assert (s + after)[i..i + |t|] == s[i..i + |t|];
    assert OccursAt(s + after, t, i);
  }

  lemma ContainsSelf(s: string)
    ensures Contains(s, s)
  {
    assert OccursAt(s, s, 0);
  }

  /** `strings.Join(xs, " ")`. */
  function JoinSpaced(xs: seq<string>): (r: string)
    ensures |xs| == 1 ==> r == xs[0]
  {
    if |xs| == 0 then ""
    else if |xs| == 1 then xs[0]
    else xs[0] + " " + JoinSpaced(xs[1..])
  }

  /** `fmt`'s `%v` of a `[]string`: elements separated by one space, in brackets. */
  function FormatStrings(xs: seq<string>): string {
    "[" + JoinSpaced(xs) + "]"
  }

  /** Every element of a list is visible, verbatim, in its `%v` rendering. */
  lemma {:induction false} FormatStringsShowsElements(xs: seq<string>, k: nat)
    requires k < |xs|
    ensures Contains(FormatStrings(xs), xs[k])
  {
    JoinShowsElements(xs, k);
    ContainsPrepend("[", JoinSpaced(xs), xs[k]);
    ContainsAppend("[" + JoinSpaced(xs), "]", xs[k]);
  }

  lemma {:induction false} JoinShowsElements(xs: seq<string>, k: nat)
    requires k < |xs|
    ensures Contains(JoinSpaced(xs), xs[k])
    decreases |xs|
  {
    if |xs| == 1 {
      ContainsSelf(xs[0]);
    } else if k == 0 {
      ContainsSelf(xs[0]);
      ContainsAppend(xs[0], " ", xs[0]);
      ContainsAppend(xs[0] + " ", JoinSpaced(xs[1..]), xs[0]);
    } else {
      JoinShowsElements(xs[1..], k - 1);
      ContainsPrepend(xs[0] + " ", JoinSpaced(xs[1..]), xs[k]);
    }
  }

  /** Characters `%q` replaces by a two-character escape. */
  predicate NeedsEscape(c: char) {
    c == '"' || c == '\\' || c == '\n' || c == '\t' || c == '\r'
  }

  function EscapeChar(c: char): string {
    if c == '"' then "\\\""
    else if c == '\\' then "\\\\"
    else if c == '\n' then "\\n"
    else if c == '\t' then "\\t"
    else if c == '\r' then "\\r"
    else [c]
  }

  function Escape(s: string): (r: string)
    ensures (forall i :: 0 <= i < |s| ==> !NeedsEscape(s[i])) ==> r == s
  {
    if |s| == 0 then "" else EscapeChar(s[0]) + Escape(s[1..])
  }

  /** `fmt`'s `%q` of a string: double-quoted, with quote, backslash and
      the common control characters escaped. */
  function Quote(s: string): string {
    "\"" + Escape(s) + "\""
  }
}

/** String helpers the tracker relies on through JavaScript's built-ins:
    `String.prototype.trim`, `startsWith`, the default ordering of
    `Array.prototype.sort` on strings, and what counts as an ISO date. */
module Text {

  /** JavaScript's WhiteSpace and LineTerminator characters, the set that
      `trim` strips and `parseFloat` skips. */
  predicate IsWhitespace(c: char) {
    c == '\t' || c == '\n' || c == '\U{000B}' || c == '\U{000C}' || c == '\r' ||
    c == ' ' || c == '\U{00A0}' || c == '\U{1680}' ||
    ('\U{2000}' <= c <= '\U{200A}') ||
    c == '\U{2028}' || c == '\U{2029}' || c == '\U{202F}' || c == '\U{205F}' ||
    c == '\U{3000}' || c == '\U{FEFF}'
  }

  predicate AllWhitespace(s: string) {
    forall i :: 0 <= i < |s| ==> IsWhitespace(s[i])
  }

  /** The length of the whitespace run that starts `s`. */
  function LeadingWhitespace(s: string): (k: nat)
    ensures k <= |s|
    ensures AllWhitespace(s[..k])
    ensures k == |s| || !IsWhitespace(s[k])
  {
    if s == [] || !IsWhitespace(s[0]) then 0 else 1 + LeadingWhitespace(s[1..])
  }

  /** The length of the whitespace run that ends `s`. */
  function TrailingWhitespace(s: string): (k: nat)
    ensures k <= |s|
    ensures AllWhitespace(s[|s| - k..])
    ensures k == |s| || !IsWhitespace(s[|s| - k - 1])
  {
    if s == [] || !IsWhitespace(s[|s| - 1]) then 0
    else 1 + TrailingWhitespace(s[..|s| - 1])
  }

  /** `s.trim()`: `s` without its leading and trailing whitespace. */
  function Trim(s: string): (r: string)
    ensures r == [] || (!IsWhitespace(r[0]) && !IsWhitespace(r[|r| - 1]))
    ensures LeadingWhitespace(s) + |r| <= |s|
    ensures r == s[LeadingWhitespace(s)..LeadingWhitespace(s) + |r|]
    ensures AllWhitespace(s[LeadingWhitespace(s) + |r|..])
  {
    var rest := s[LeadingWhitespace(s)..];
    rest[..|rest| - TrailingWhitespace(rest)]
  }

  /** A string trims to nothing exactly when it is all whitespace (the
      falsy branch of `newCategory.trim() && ...`). */
  lemma {:induction false} TrimEmptyIffBlank(s: string)
    ensures Trim(s) == [] <==> AllWhitespace(s)
  {
    var a := LeadingWhitespace(s);
    if Trim(s) == [] {
      assert s[..a] == s;
    }
  }

  /** Trimming twice trims nothing more. */
  lemma {:induction false} TrimIdempotent(s: string)
    ensures Trim(Trim(s)) == Trim(s)
  {
    var r := Trim(s);
    if r != [] {
      assert LeadingWhitespace(r) == 0;
      assert TrailingWhitespace(r[0..]) == 0 by { assert r[0..] == r; }
      assert r[0..][..|r|] == r;
    }
  }

  /** `s.startsWith(prefix)`. */
  predicate StartsWith(s: string, prefix: string) {
    |prefix| <= |s| && s[..|prefix|] == prefix
  }

  /** `s.replace(pat, rep)` with a string pattern: the first occurrence of
      `pat` replaced by `rep`; an empty `pat` occurs at the start. */
  function ReplaceFirst(s: string, pat: string, rep: string): string {
    if StartsWith(s, pat) then rep + s[|pat|..]
    else if s == [] then s
    else [s[0]] + ReplaceFirst(s[1..], pat, rep)
  }

  lemma MissingCharNotPrefix(s: string, pat: string, c: char)
    requires c in pat && c !in s
    ensures !StartsWith(s, pat)
  {
    if |pat| <= |s| {
      var i :| 0 <= i < |pat| && pat[i] == c;
      assert s[i] !in pat[i..i + 1];
    }
  }

  /** A string that lacks one of the pattern's characters is left alone. */
  lemma {:induction false} ReplaceMissing(s: string, pat: string, rep: string, c: char)
    requires c in pat && c !in s
    ensures ReplaceFirst(s, pat, rep) == s
  {
    MissingCharNotPrefix(s, pat, c);
    if s != [] {
      ReplaceMissing(s[1..], pat, rep, c);
    }
  }

  /** The order in which `Array.prototype.sort` puts strings when it is
      given no comparator: lexicographic by character code. */
  predicate LexLe(a: string, b: string) {
    a == [] || (b != [] && (a[0] < b[0] || (a[0] == b[0] && LexLe(a[1..], b[1..]))))
  }

  predicate LexLess(a: string, b: string) {
    LexLe(a, b) && a != b
  }

  lemma {:induction false} LexLeTotal(a: string, b: string)
    ensures LexLe(a, b) || LexLe(b, a)
  {
    if a != [] && b != [] && a[0] == b[0] {
      LexLeTotal(a[1..], b[1..]);
    }
  }

  lemma {:induction false} LexLeAntisymmetric(a: string, b: string)
    requires LexLe(a, b) && LexLe(b, a)
    ensures a == b
  {
    if a != [] && b != [] {
      LexLeAntisymmetric(a[1..], b[1..]);
      assert a == [a[0]] + a[1..] && b == [b[0]] + b[1..];
    }
  }

  lemma {:induction false} LexLeTransitive(a: string, b: string, c: string)
    requires LexLe(a, b) && LexLe(b, c)
    ensures LexLe(a, c)
  {
    if a != [] && b != [] && c != [] && a[0] == b[0] && b[0] == c[0] {
      LexLeTransitive(a[1..], b[1..], c[1..]);
    }
  }

  predicate IsDigitChar(c: char) {
    '0' <= c <= '9'
  }

  /** Two digits at `s[i]` and `s[i + 1]` whose value lies in `lo..hi`. */
  predicate TwoDigitsIn(s: string, i: nat, lo: int, hi: int)
    requires i + 1 < |s|
  {
    IsDigitChar(s[i]) && IsDigitChar(s[i + 1]) &&
    lo <= (s[i] as int - '0' as int) * 10 + (s[i + 1] as int - '0' as int) <= hi
  }

  /** A calendar date written `YYYY-MM-DD`, the form the date input yields:
      the strings that `new Date(...)` turns into a valid date here. */
  predicate IsIsoDate(s: string) {
    |s| == 10 &&
    IsDigitChar(s[0]) && IsDigitChar(s[1]) && IsDigitChar(s[2]) && IsDigitChar(s[3]) &&
    s[4] == '-' && TwoDigitsIn(s, 5, 1, 12) &&
    s[7] == '-' && TwoDigitsIn(s, 8, 1, 31)
  }
}

/** Decimal numerals: `Number.prototype.toString` for the clock value that
    becomes a transaction id and for an amount put back into the form, and
    `parseFloat` for the amount the form submits. Amounts are whole cents. */
module Numbers {
  import opened Wrappers
  import opened Text

  predicate AllDigits(s: string) {
    forall i :: 0 <= i < |s| ==> IsDigitChar(s[i])
  }

  function DigitChar(d: nat): (c: char)
    requires d < 10
    ensures IsDigitChar(c) && c as int - '0' as int == d
  {
    ('0' as int + d) as char
  }

  /** The value of a run of decimal digits, most significant first. */
  function DigitsValue(s: string): nat
    requires AllDigits(s)
  {
    if s == [] then 0
    else DigitsValue(s[..|s| - 1]) * 10 + (s[|s| - 1] as int - '0' as int)
  }

  /** `n.toString()` for a natural number: its decimal digits, without
      leading zeros. */
  function NatStr(n: nat): (s: string)
    ensures |s| >= 1 && AllDigits(s)
    ensures |s| > 1 ==> s[0] != '0'
  {
    if n < 10 then [DigitChar(n)] else NatStr(n / 10) + [DigitChar(n % 10)]
  }

  lemma {:induction false} NatStrValue(n: nat)
    ensures DigitsValue(NatStr(n)) == n
  {
    if n >= 10 {
      NatStrValue(n / 10);
      var s := NatStr(n);
      assert s[..|s| - 1] == NatStr(n / 10);
    }
  }

  /** Distinct clock readings give distinct numerals, hence distinct ids. */
  lemma NatStrInjective(m: nat, n: nat)
    requires m != n
    ensures NatStr(m) != NatStr(n)
  {
    NatStrValue(m);
    NatStrValue(n);
  }

  /** The length of the digit run that starts `s`. */
  function DigitPrefix(s: string): (k: nat)
    ensures k <= |s| && AllDigits(s[..k])
    ensures k == |s| || !IsDigitChar(s[k])
  {
    if s == [] || !IsDigitChar(s[0]) then 0 else 1 + DigitPrefix(s[1..])
  }

  lemma {:induction false} DigitPrefixOfDigits(d: string, rest: string)
    requires AllDigits(d)
    requires rest == [] || !IsDigitChar(rest[0])
    ensures DigitPrefix(d + rest) == |d|
  {
    if d != [] {
      assert (d + rest)[1..] == d[1..] + rest;
      DigitPrefixOfDigits(d[1..], rest);
    }
  }

  /** The cents named by the digits after the decimal point; digits past
      the second are dropped. */
  function CentsOf(frac: string): (c: nat)
    requires AllDigits(frac)
    ensures c < 100
  {
    (if |frac| >= 1 then (frac[0] as int - '0' as int) * 10 else 0) +
    (if |frac| >= 2 then frac[1] as int - '0' as int else 0)
  }

  /** The digits of an unsigned decimal numeral in cents: the integer
      digits, then the fraction digits after a `.`; reading stops at the
      first character that does not fit. `None`: no digit on either side of
      the point. */
  function ParseUnsigned(u: string): Option<nat> {
    var w := DigitPrefix(u);
    var rest := u[w..];
    var frac := if |rest| > 0 && rest[0] == '.' then rest[1..][..DigitPrefix(rest[1..])] else "";
    if w == 0 && frac == "" then None
    else Some(DigitsValue(u[..w]) * 100 + CentsOf(frac))
  }

  /** A numeral of digits alone is read whole, with no cents. */
  lemma WholeNumeral(u: string)
    ensures u != [] && AllDigits(u) ==> ParseUnsigned(u) == Some(DigitsValue(u) * 100)
  {
    if u != [] && AllDigits(u) {
      DigitPrefixOfDigits(u, "");
      assert u + "" == u;
    }
  }

  /** `parseFloat(s)` in cents: skip leading whitespace, read an optional
      sign, then an unsigned numeral. `None` is `NaN`. */
  function ParseAmount(s: string): (r: Option<int>)
    ensures AllWhitespace(s) ==> r.None?
    ensures s != [] && AllDigits(s) ==> r == Some(DigitsValue(s) * 100)
  {
    var t := s[LeadingWhitespace(s)..];
    var neg := |t| > 0 && t[0] == '-';
    var u := if |t| > 0 && (t[0] == '-' || t[0] == '+') then t[1..] else t;
    assert AllWhitespace(s) ==> u == [];
    assert s != [] && AllDigits(s) ==> LeadingWhitespace(s) == 0 && u == s;
    WholeNumeral(u);
    match ParseUnsigned(u)
    case None => None
    case Some(m) => Some(if neg then -(m as int) else m as int)
  }

  /** The fraction part `toString` prints for `f` cents (`f < 100`). */
  function FractionStr(f: nat): string
    requires f < 100
  {
    if f == 0 then ""
    else if f % 10 == 0 then ['.', DigitChar(f / 10)]
    else ['.', DigitChar(f / 10), DigitChar(f % 10)]
  }

  function FormatUnsigned(m: nat): (r: string)
    ensures r != [] && IsDigitChar(r[0])
    ensures '.' in r <==> m % 100 != 0
  {
    var whole, frac := NatStr(m / 100), FractionStr(m % 100);
    assert '.' !in whole by {
      forall i | 0 <= i < |whole| ensures whole[i] != '.' {
        assert IsDigitChar(whole[i]);
      }
    }
    assert m % 100 != 0 ==> frac[0] == '.';
    assert '.' in whole + frac <==> '.' in frac;
    whole + frac
  }

  /** `amount.toString()` for an amount of `c` cents: the shortest decimal
      numeral, with no fraction for whole amounts and no trailing zero. */
  function FormatCents(c: int): (r: string)
    ensures r != []
    ensures r[0] == '-' <==> c < 0
    ensures '.' in r <==> c % 100 != 0
  {
    if c < 0 then
      assert (-c) % 100 != 0 <==> c % 100 != 0;
      var u := FormatUnsigned(-c);
      assert '.' in "-" + u <==> '.' in u;
      "-" + u
    else FormatUnsigned(c)
  }

  lemma {:induction false} FormatThenParseUnsigned(m: nat)
    ensures ParseUnsigned(FormatUnsigned(m)) == Some(m)
  {
    var whole := NatStr(m / 100);
    var frac := FractionStr(m % 100);
    var u := whole + frac;
    DigitPrefixOfDigits(whole, frac);
    assert u[..|whole|] == whole;
    assert u[|whole|..] == frac;
    NatStrValue(m / 100);
    if frac != "" {
      var digits := frac[1..];
      DigitPrefixOfDigits(digits, "");
      assert digits + "" == digits;
      assert digits[..DigitPrefix(digits)] == digits;
    }
  }

  /** A numeral that starts with a digit, with or without a minus sign in
      front, is read without skipping anything. */
  lemma ParseSigned(u: string, neg: bool)
    requires u != [] && IsDigitChar(u[0])
    ensures ParseAmount(if neg then "-" + u else u) ==
            match ParseUnsigned(u)
            case None => None
            case Some(m) => Some(if neg then -(m as int) else m as int)
  {
    var s := if neg then "-" + u else u;
    assert LeadingWhitespace(s) == 0 by {
      assert !IsWhitespace(s[0]);
    }
    assert s[0..] == s;
    if neg {
      assert s[1..] == u;
    }
  }

  /** Putting an amount into the form and submitting it gives back the same
      amount: `parseFloat(amount.toString()) == amount`. */
  lemma FormatThenParse(c: int)
    ensures ParseAmount(FormatCents(c)) == Some(c)
  {
    var m := if c < 0 then -c else c;
    FormatThenParseUnsigned(m);
    ParseSigned(FormatUnsigned(m), c < 0);
  }
}

/**
 * The few JavaScript built-ins the dashboard's logic relies on, stated on
 * well-defined values: `parseInt` (decimal form), `Number#toString` on
 * integers, `String#includes`, and `new Date(a) <= new Date(b)` on
 * `YYYY-MM-DD` strings.
 */
module JsBuiltins {
  import opened Wrappers

  // ---------------------------------------------------------------------
  // Decimal digits
  // ---------------------------------------------------------------------

  predicate IsDigit(c: char) { '0' <= c <= '9' }

  function DigitValue(c: char): (d: nat)
    requires IsDigit(c)
    ensures d < 10
  {
    c as int - '0' as int
  }

  function DigitChar(d: nat): (c: char)
    requires d < 10
    ensures IsDigit(c) && DigitValue(c) == d
  {
    ('0' as int + d) as char
  }

  predicate AllDigits(s: string) {
    forall i :: 0 <= i < |s| ==> IsDigit(s[i])
  }

  /** The number a string of decimal digits denotes, most significant digit first. */
  function DigitsValue(s: string): nat
    requires AllDigits(s)
  {
    if s == [] then 0 else DigitsValue(s[..|s| - 1]) * 10 + DigitValue(s[|s| - 1])
  }

  /** The longest prefix of `s` made of decimal digits. */
  function DigitPrefix(s: string): (p: string)
    ensures AllDigits(p)
  {
    if s != [] && IsDigit(s[0]) then [s[0]] + DigitPrefix(s[1..]) else []
  }

  lemma {:induction false} DigitPrefixOfDigits(s: string)
    requires AllDigits(s)
    ensures DigitPrefix(s) == s
  {
    if s != [] {
      DigitPrefixOfDigits(s[1..]);
    }
  }

  // ---------------------------------------------------------------------
  // parseInt(s) with the default radix
  // ---------------------------------------------------------------------

  /** The white-space characters `parseInt` skips before the number. */
  predicate IsJsSpace(c: char) {
    c == ' ' || c == '\t' || c == '\n' || c == '\r' || c == '\U{000B}' || c == '\U{000C}'
    || c == '\U{00A0}' || c == '\U{FEFF}' || c == '\U{2028}' || c == '\U{2029}'
  }

  function TrimStart(s: string): (t: string)
  {
    if s != [] && IsJsSpace(s[0]) then TrimStart(s[1..]) else s
  }

  /**
   * `parseInt(s)`: skip leading white space, read an optional sign, then the
   * longest run of decimal digits. `None` is NaN (no digit at all).
   */
  function ParseInt(s: string): (n: Option<int>)
    // no digit at all is NaN
    ensures s == [] ==> n.None?
    ensures s != [] && !IsJsSpace(s[0]) && !IsDigit(s[0]) && s[0] != '-' && s[0] != '+' ==> n.None?
    // a plain run of digits is read in full
    ensures s != [] && AllDigits(s) ==> n == Some(DigitsValue(s) as int)
  {
    if s != [] && AllDigits(s) then
      DigitPrefixOfDigits(s);
      ParseSigned(TrimStart(s))
    else
      ParseSigned(TrimStart(s))
  }

  /** An optional sign followed by digits. */
  function ParseSigned(t: string): Option<int>
  {
    if t != [] && t[0] == '-' then Negate(ParseDigits(t[1..]))
    else if t != [] && t[0] == '+' then ParseDigits(t[1..])
    else ParseDigits(t)
  }

  /** The longest run of digits at the start of `u`, if there is one. */
  function ParseDigits(u: string): Option<int>
  {
    var ds := DigitPrefix(u);
    if ds == [] then None else Some(DigitsValue(ds) as int)
  }

  function Negate(n: Option<int>): Option<int>
  {
    match n
    case Some(v) => Some(-v)
    case None => None
  }

  /** `parseInt(s) || 0`: NaN (and 0) become 0. */
  function ParseIntOrZero(s: string): (n: int)
    ensures ParseInt(s).Some? ==> n == ParseInt(s).value
    ensures ParseInt(s).None? ==> n == 0
  {
    match ParseInt(s)
    case Some(v) => v
    case None => 0
  }

  // ---------------------------------------------------------------------
  // Number#toString on integers
  // ---------------------------------------------------------------------

  /** Decimal digits of a natural number, without leading zeros. */
  function NatToDecimal(n: nat): (s: string)
    ensures s != [] && AllDigits(s)
    ensures |s| > 1 ==> s[0] != '0'
  {
    if n < 10 then [DigitChar(n)] else NatToDecimal(n / 10) + [DigitChar(n % 10)]
  }

  /** `n.toString()` for an integer `n`. */
  function IntToString(n: int): (s: string)
    ensures s != []
  {
    if n < 0 then "-" + NatToDecimal(-n) else NatToDecimal(n)
  }

  lemma {:induction false} NatToDecimalValue(n: nat)
    ensures DigitsValue(NatToDecimal(n)) == n
  {
    var s := NatToDecimal(n);
    if n >= 10 {
      NatToDecimalValue(n / 10);
      assert s[..|s| - 1] == NatToDecimal(n / 10);
    }
  }

  /** The value of a run of digits under an optional minus sign. */
  function SignedValue(negative: bool, ds: string): int
    requires AllDigits(ds)
  {
    var magnitude: int := DigitsValue(ds);
    if negative then -magnitude else magnitude
  }

  /** `parseInt` of an optional minus sign followed by digits. */
  lemma ParseIntOfSignedDigits(negative: bool, ds: string)
    requires ds != [] && AllDigits(ds)
    ensures ParseInt((if negative then "-" else "") + ds) == Some(SignedValue(negative, ds))
  {
    var s := (if negative then "-" else "") + ds;
    assert s[0] == '-' || IsDigit(s[0]);
    assert TrimStart(s) == s;
    DigitPrefixOfDigits(ds);
    assert ParseDigits(ds) == Some(DigitsValue(ds) as int);
    if negative {
      assert s[1..] == ds;
    } else {
      assert s == ds;
    }
  }

  /** `parseInt` reads back what `toString` writes, for every integer. */
  lemma ParseIntOfToString(n: int)
    ensures ParseInt(IntToString(n)) == Some(n)
    ensures ParseIntOrZero(IntToString(n)) == n
  {
    var m: nat := if n < 0 then -n else n;
    NatToDecimalValue(m);
    ParseIntOfSignedDigits(n < 0, NatToDecimal(m));
    assert IntToString(n) == (if n < 0 then "-" else "") + NatToDecimal(m);
  }

  // ---------------------------------------------------------------------
  // String#includes
  // ---------------------------------------------------------------------

  predicate IsPrefix(p: string, s: string) {
    |p| <= |s| && s[..|p|] == p
  }

  /** `s.includes(p)`: `p` occurs in `s` at some position. */
  predicate Includes(s: string, p: string)
    ensures Includes(s, p) ==> |p| <= |s|
    ensures IsPrefix(p, s) ==> Includes(s, p)
    decreases |s|
  {
    IsPrefix(p, s) || (s != [] && Includes(s[1..], p))
  }

  lemma IncludesEmpty(s: string)
    ensures Includes(s, "")
  {
  }

  lemma {:induction false} IncludesAt(s: string, p: string, i: nat)
    requires i + |p| <= |s| && s[i..i + |p|] == p
    ensures Includes(s, p)
  {
    if i > 0 {
      assert s[1..][i - 1..i - 1 + |p|] == p;
      IncludesAt(s[1..], p, i - 1);
    }
  }

  // ---------------------------------------------------------------------
  // Date comparison on YYYY-MM-DD strings
  // ---------------------------------------------------------------------

  /** A `YYYY-MM-DD` string, the only date format the model gives a value to. */
  predicate IsIsoDate(s: string) {
    |s| == 10 && s[4] == '-' && s[7] == '-'
    && IsDigit(s[0]) && IsDigit(s[1]) && IsDigit(s[2]) && IsDigit(s[3])
    && IsDigit(s[5]) && IsDigit(s[6]) && IsDigit(s[8]) && IsDigit(s[9])
  }

  /** Lexicographic order on strings (`a <= b` in JavaScript). */
  predicate LexLe(a: string, b: string) {
    a == [] || (b != [] && (a[0] < b[0] || (a[0] == b[0] && LexLe(a[1..], b[1..]))))
  }

  lemma {:induction false} LexLeReflexive(a: string)
    ensures LexLe(a, a)
  {
    if a != [] {
      LexLeReflexive(a[1..]);
    }
  }

  /** Two strings that agree up to `k` and differ first at `k` are ordered by that character. */
  lemma {:induction false} LexLeAt(a: string, b: string, k: nat)
    requires k < |a| && k < |b| && a[..k] == b[..k] && a[k] < b[k]
    ensures LexLe(a, b)
  {
    if k > 0 {
      assert a[0] == a[..k][0] == b[..k][0] == b[0];
      assert a[1..][..k - 1] == a[1..k] == b[1..k] == b[1..][..k - 1];
      LexLeAt(a[1..], b[1..], k - 1);
    }
  }

  /** Two strings that agree up to `k` and whose `k`th characters are in the wrong order are not ordered. */
  lemma {:induction false} LexGreaterAt(a: string, b: string, k: nat)
    requires k < |a| && k < |b| && a[..k] == b[..k] && a[k] > b[k]
    ensures !LexLe(a, b)
  {
    if k > 0 {
      assert a[0] == a[..k][0] == b[..k][0] == b[0];
      assert a[1..][..k - 1] == a[1..k] == b[1..k] == b[1..][..k - 1];
      LexGreaterAt(a[1..], b[1..], k - 1);
    }
  }

  lemma {:induction false} LexLeTransitive(a: string, b: string, c: string)
    requires LexLe(a, b) && LexLe(b, c)
    ensures LexLe(a, c)
  {
    if a != [] && b != [] && c != [] && a[0] == b[0] && b[0] == c[0] {
      LexLeTransitive(a[1..], b[1..], c[1..]);
    }
  }

  /**
   * `new Date(a) <= new Date(b)`. Two well-formed dates compare
   * chronologically, which for `YYYY-MM-DD` is lexicographic order; any
   * other string is an Invalid Date whose time value is NaN, and every
   * comparison with NaN is false.
   */
  predicate DateLe(a: string, b: string)
    ensures DateLe(a, b) ==> IsIsoDate(a) && IsIsoDate(b)
  {
    IsIsoDate(a) && IsIsoDate(b) && LexLe(a, b)
  }

  lemma DateLeReflexive(a: string)
    requires IsIsoDate(a)
    ensures DateLe(a, a)
  {
    LexLeReflexive(a);
  }

  /** Two dates in order with a third are in order. */
  lemma DateLeTransitive(a: string, b: string, c: string)
    requires DateLe(a, b) && DateLe(b, c)
    ensures DateLe(a, c)
  {
    LexLeTransitive(a, b, c);
  }

  lemma {:induction false} LexLeTotal(a: string, b: string)
    ensures LexLe(a, b) || LexLe(b, a)
  {
    if a != [] && b != [] && a[0] == b[0] {
      LexLeTotal(a[1..], b[1..]);
    }
  }

  /** Any two well-formed dates are comparable. */
  lemma DateLeTotal(a: string, b: string)
    requires IsIsoDate(a) && IsIsoDate(b)
    ensures DateLe(a, b) || DateLe(b, a)
  {
    LexLeTotal(a, b);
  }
}

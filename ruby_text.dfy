/**
 * The Ruby conversions the plugin relies on: `String#to_i` and `NilClass#to_i`
 * (the topic id taken from the request parameters), `Integer#to_s` (the key a
 * category id is looked up under in the access map) and `String#end_with?`
 * (the ".json" test on `external_id`).
 */
module RubyText {
  import opened Wrappers

  /** The characters Ruby's ISSPACE accepts: space, tab, LF, VT, FF, CR. */
  predicate IsSpace(c: char) {
    c == ' ' || c == '\t' || c == '\n' || c as int == 11 || c as int == 12 || c == '\r'
  }

  predicate IsDigit(c: char) {
    '0' <= c <= '9'
  }

  predicate AllDigits(s: string) {
    forall i :: 0 <= i < |s| ==> IsDigit(s[i])
  }

  function DigitValue(c: char): (d: nat)
    requires IsDigit(c)
    ensures d < 10
  {
    c as int - '0' as int
  }

  function DigitChar(d: nat): (c: char)
    requires d < 10
    ensures IsDigit(c) && DigitValue(c) == d
  {
    ('0' as int + d) as char
  }

  /** The text left once the leading whitespace `String#to_i` ignores is dropped. */
  function SkipSpace(s: string): (r: string)
    ensures |r| <= |s| && r == s[|s| - |r|..]
    ensures r != [] ==> !IsSpace(r[0])
    ensures forall i :: 0 <= i < |s| - |r| ==> IsSpace(s[i])
  {
    if s != [] && IsSpace(s[0]) then SkipSpace(s[1..]) else s
  }

  /**
   * Accumulates onto `acc` the decimal digits at the front of `s`. A single
   * underscore followed by a digit is skipped; anything else ends the number,
   * including a second underscore in a row or a trailing underscore.
   */
  function ScanDigits(s: string, acc: nat): nat
  {
    if s != [] && IsDigit(s[0]) then ScanDigits(s[1..], acc * 10 + DigitValue(s[0]))
    else if |s| >= 2 && s[0] == '_' && IsDigit(s[1]) then ScanDigits(s[1..], acc)
    else acc
  }

  /**
   * The unsigned part of `String#to_i` in base 10: an optional "0d"/"0D" radix
   * prefix, then digits. No digit where one is needed gives 0.
   */
  function UnsignedToI(s: string): nat
  {
    var u := if |s| >= 2 && s[0] == '0' && (s[1] == 'd' || s[1] == 'D') then s[2..] else s;
    if u != [] && IsDigit(u[0]) then ScanDigits(u, 0) else 0
  }

  /**
   * `String#to_i`: leading whitespace, an optional sign, then the number; never
   * fails. Text with nothing after its whitespace reads as 0, and only a
   * leading '-' gives a negative number.
   */
  function ToI(s: string): (n: int)
    ensures SkipSpace(s) == [] ==> n == 0
    ensures n < 0 ==> SkipSpace(s)[0] == '-'
    ensures n > 0 ==> SkipSpace(s)[0] == '+' || IsDigit(SkipSpace(s)[0])
  {
    var t := SkipSpace(s);
    if t != [] && t[0] == '-' then -(UnsignedToI(t[1..]) as int)
    else if t != [] && t[0] == '+' then UnsignedToI(t[1..])
    else UnsignedToI(t)
  }

  /** `param.to_i` for a request parameter that is a String or nil (`nil.to_i` is 0). */
  function ParamToI(p: Option<string>): (n: int)
    ensures p.None? ==> n == 0
    ensures p.Some? ==> n == ToI(p.value)
  {
    match p
    case None => 0
    case Some(s) => ToI(s)
  }

  /** Decimal digits of a natural number, most significant first, no leading zero. */
  function NatToS(n: nat): (s: string)
    ensures s != [] && AllDigits(s)
    ensures |s| > 1 ==> s[0] != '0'
  {
    if n < 10 then [DigitChar(n)] else NatToS(n / 10) + [DigitChar(n % 10)]
  }

  /** `Integer#to_s`: the decimal text, with a leading '-' for a negative number. */
  function IntToS(n: int): (s: string)
    ensures n >= 0 ==> s != [] && AllDigits(s) && (|s| > 1 ==> s[0] != '0')
    ensures n < 0 ==> |s| > 1 && s[0] == '-' && AllDigits(s[1..]) && s[1] != '0'
  {
    if n < 0 then "-" + NatToS(-n) else NatToS(n)
  }

  /** `String#end_with?` (`ends_with?` is ActiveSupport's alias): `s` is some text followed by `suffix`. */
  predicate EndsWith(s: string, suffix: string): (b: bool)
    ensures b <==> exists p :: s == p + suffix
  {
    if |suffix| <= |s| && s[|s| - |suffix|..] == suffix then
      assert s == s[..|s| - |suffix|] + suffix;
      true
    else
      false
  }

  lemma {:induction false} ScanDigitsSnoc(p: string, d: char, acc: nat)
    requires AllDigits(p) && IsDigit(d)
    ensures ScanDigits(p + [d], acc) == ScanDigits(p, acc) * 10 + DigitValue(d)
  {
    if p == [] {
      assert [] + [d] == [d];
    } else {
      assert (p + [d])[1..] == p[1..] + [d];
      ScanDigitsSnoc(p[1..], d, acc * 10 + DigitValue(p[0]));
    }
  }

  /** Scanning the decimal text of `n` gives back `n`. */
  lemma {:induction false} ScanNatToS(n: nat)
    ensures ScanDigits(NatToS(n), 0) == n
  {
    if n >= 10 {
      ScanNatToS(n / 10);
      ScanDigitsSnoc(NatToS(n / 10), DigitChar(n % 10), 0);
    }
  }

  /** The unsigned reading of a decimal text is the number it was made from. */
  lemma UnsignedToINatToS(m: nat)
    ensures UnsignedToI(NatToS(m)) == m
  {
    var digits := NatToS(m);
    assert |digits| >= 2 ==> IsDigit(digits[1]);
    ScanNatToS(m);
  }

  /** `n.to_s.to_i == n` for every integer. */
  lemma ToIOfIntToS(n: int)
    ensures ToI(IntToS(n)) == n
  {
    var s := IntToS(n);
    assert SkipSpace(s) == s;
    if n < 0 {
      assert s[0] == '-' && s[1..] == NatToS(-n);
      UnsignedToINatToS(-n);
    } else {
      assert s != [] && IsDigit(s[0]);
      UnsignedToINatToS(n);
    }
  }

  /** Two different integers never have the same decimal text. */
  lemma IntToSInjective(a: int, b: int)
    requires a != b
    ensures IntToS(a) != IntToS(b)
  {
    ToIOfIntToS(a);
    ToIOfIntToS(b);
  }
}

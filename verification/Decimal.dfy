/** Decimal integers as text: the two conversions the bot takes from Go's strconv
    package, for its 64-bit `int`. */
module Decimal {

  import opened Wrappers

  const MIN_INT := -0x8000_0000_0000_0000
  const MAX_INT := 0x7fff_ffff_ffff_ffff

  predicate IsDigit(c: char) {
    '0' <= c <= '9'
  }

  predicate AllDigits(s: string) {
    forall i :: 0 <= i < |s| ==> IsDigit(s[i])
  }

  function DigitValue(c: char): (v: nat)
    requires IsDigit(c)
    ensures v < 10
  {
    c as int - '0' as int
  }

  function Value(s: string): nat
    requires AllDigits(s)
  {
    if s == "" then 0 else Value(s[..|s| - 1]) * 10 + DigitValue(s[|s| - 1])
  }

  /** An optional sign, then one or more digits; anything else, or a value that does
      not fit in 64 bits, is an error. */
  function Atoi(s: string): (r: Option<int>)
    ensures r.Some? ==> MIN_INT <= r.value <= MAX_INT
  {
    if s == "" then None
    else
      var digits := if s[0] == '-' || s[0] == '+' then s[1..] else s;
      if digits == "" || !AllDigits(digits) then None
      else
        var magnitude: int := Value(digits);
        var v := if s[0] == '-' then -magnitude else magnitude;
        if MIN_INT <= v <= MAX_INT then Some(v) else None
  }

  function Digits(n: nat): (s: string) {
    var last := ['0' + (n % 10) as char];
    if n < 10 then last else Digits(n / 10) + last
  }

  function Itoa(n: int): string {
    if n < 0 then "-" + Digits(-n) else Digits(n)
  }

  lemma {:induction false} DigitsValue(n: nat)
    ensures Digits(n) != "" && AllDigits(Digits(n)) && Value(Digits(n)) == n
  {
    var s := Digits(n);
    var last := '0' + (n % 10) as char;
    if n >= 10 {
      DigitsValue(n / 10);
    }
    assert s[|s| - 1] == last;
    assert s[..|s| - 1] == if n < 10 then "" else Digits(n / 10);
  }

  /** Reading back what was printed gives the same number, for every 64-bit value. */
  lemma AtoiItoa(n: int)
    requires MIN_INT <= n <= MAX_INT
    ensures Atoi(Itoa(n)) == Some(n)
  {
    var digits := Digits(if n < 0 then -n else n);
    DigitsValue(if n < 0 then -n else n);
    assert IsDigit(digits[0]);
    if n < 0 {
      assert Itoa(n)[0] == '-' && Itoa(n)[1..] == digits;
    }
  }

  /** A printed number has no character outside the sign and the digits. */
  lemma ItoaChars(n: int, c: char)
    requires c in Itoa(n)
    ensures IsDigit(c) || (c == '-' && n < 0)
  {
    DigitsValue(if n < 0 then -n else n);
  }

  lemma ItoaSign(n: int)
    ensures Itoa(n) != "" && (Itoa(n)[0] == '-' <==> n < 0)
  {
    DigitsValue(if n < 0 then -n else n);
    assert n >= 0 ==> IsDigit(Digits(n)[0]);
  }

  lemma ItoaInjective(m: int, n: int)
    requires Itoa(m) == Itoa(n)
    ensures m == n
  {
    ItoaSign(m);
    ItoaSign(n);
    DigitsValue(if m < 0 then -m else m);
    DigitsValue(if n < 0 then -n else n);
    if m < 0 {
      assert Itoa(m)[1..] == Digits(-m) && Itoa(n)[1..] == Digits(-n);
    }
  }

  // ---- what is read, digit by digit ----

  /** A digit reads as itself, and one more digit is ten times the number and that digit. */
  lemma AtoiDigit(s: string, c: char)
    requires IsDigit(c) && AllDigits(s)
    ensures Atoi([c]) == Some(c as int - '0' as int)
    ensures s != "" && Atoi(s).Some? ==>
      var v := 10 * Atoi(s).value + (c as int - '0' as int);
      Atoi(s + [c]) == if v <= MAX_INT then Some(v) else None
  {
    assert [c][..0] == "" && AllDigits([c]);
    assert Value([c]) == Value("") * 10 + DigitValue(c);
    if s != "" {
      var t := s + [c];
      assert t[..|t| - 1] == s && t[|t| - 1] == c && t[0] == s[0] && AllDigits(t);
      assert IsDigit(s[0]);
    }
  }

  /** A sign before the digits. */
  lemma AtoiSign(s: string)
    requires s != "" && AllDigits(s)
    ensures Atoi("+" + s) == Atoi(s)
    ensures Atoi(s).Some? ==> Atoi("-" + s) == Some(-Atoi(s).value)
  {
    assert ("+" + s)[1..] == s && ("-" + s)[1..] == s;
    assert IsDigit(s[0]);
  }

  /** Nothing but an optional sign and at least one digit is read. */
  lemma AtoiRejects(s: string)
    requires Atoi(s).Some?
    ensures s != ""
    ensures var digits := if s[0] == '-' || s[0] == '+' then s[1..] else s; digits != "" && AllDigits(digits)
  {
  }
}

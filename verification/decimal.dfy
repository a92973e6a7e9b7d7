/** ASCII decimal digits: what `char::is_ascii_digit` and `char::to_digit(10)` accept,
    and the base-10 value `str::parse::<u64>` gives a run of them (without its overflow check). */
module Decimal {

  /** True of exactly the characters '0' to '9'. */
  predicate IsDigit(c: char) {
    '0' <= c <= '9'
  }

  /** The value `char::to_digit(10)` returns for a digit. */
  function DigitValue(c: char): (d: nat)
    requires IsDigit(c)
    ensures d < 10
  {
    c as int - '0' as int
  }

  /** The digit character for a value below ten. */
  function DigitChar(d: nat): (c: char)
    requires d < 10
    ensures IsDigit(c) && DigitValue(c) == d
  {
    ('0' as int + d) as char
  }

  /** The digits are exactly the ten characters `DigitChar` writes, one per value below ten. */
  lemma DigitCharacters(c: char)
    ensures IsDigit(c) <==> exists d: nat :: d < 10 && DigitChar(d) == c
  {
    if IsDigit(c) {
      assert DigitChar(DigitValue(c)) == c;
    }
  }

  predicate AllDigits(s: seq<char>) {
    forall i :: 0 <= i < |s| ==> IsDigit(s[i])
  }

  /** The number a digit run denotes, most significant digit first; leading zeros are allowed.
      It is zero exactly when every digit is a `0` (the empty run included). */
  function Value(ds: seq<char>): (v: nat)
    requires AllDigits(ds)
    ensures v == 0 <==> forall i :: 0 <= i < |ds| ==> ds[i] == '0'
  {
    if |ds| == 0 then 0
    else
      var p := ds[..|ds| - 1];
      assert forall i :: 0 <= i < |p| ==> p[i] == ds[i];
      10 * Value(p) + DigitValue(ds[|ds| - 1])
  }

  /** The shortest decimal spelling of `n`, the inverse of `Value`. */
  function Digits(n: nat): (ds: seq<char>)
    ensures |ds| >= 1 && AllDigits(ds)
    ensures Value(ds) == n
    ensures n > 0 ==> ds[0] != '0'
  {
    if n < 10 then [DigitChar(n)]
    else
      var ds := Digits(n / 10) + [DigitChar(n % 10)];
      assert ds[..|ds| - 1] == Digits(n / 10);
      ds
  }

  /** Leading zeros do not change the value `str::parse` gives. */
  lemma {:induction false} LeadingZeroIgnored(ds: seq<char>)
    requires AllDigits(ds)
    ensures AllDigits(['0'] + ds) && Value(['0'] + ds) == Value(ds)
  {
    var zs := ['0'] + ds;
    if |ds| > 0 {
      assert zs[..|zs| - 1] == ['0'] + ds[..|ds| - 1];
      LeadingZeroIgnored(ds[..|ds| - 1]);
    }
  }
}

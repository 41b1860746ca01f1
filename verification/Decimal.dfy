/**
 Decimal text of Go's 64-bit `int`: `strconv.Itoa` and `strconv.Atoi`, as the
 retry counter of an LBS entry uses them.
 */
module Decimal {
  import opened Wrappers

  const MAX_INT: int := 0x7fff_ffff_ffff_ffff
  const MIN_INT: int := -0x8000_0000_0000_0000

  ghost predicate InRange(n: int) { MIN_INT <= n <= MAX_INT }

  predicate IsDigit(c: char) { '0' <= c <= '9' }

  predicate AllDigits(s: string) { forall i :: 0 <= i < |s| ==> IsDigit(s[i]) }

  function DigitChar(d: nat): (c: char)
    requires d < 10
    ensures IsDigit(c) && c as int - '0' as int == d
  {
    ('0' as int + d) as char
  }

  function Digits(n: nat): (s: string)
    ensures s != [] && AllDigits(s)
  {
    if n < 10 then [DigitChar(n)] else Digits(n / 10) + [DigitChar(n % 10)]
  }

  function Itoa(n: int): string {
    if n < 0 then "-" + Digits(-n) else Digits(n)
  }

  function DigitsValue(s: string): (n: nat)
    requires AllDigits(s)
  {
    if s == [] then 0
    else 10 * DigitsValue(s[..|s| - 1]) + (s[|s| - 1] as int - '0' as int)
  }

  /** An optional sign, then at least one digit, then a 64-bit range check; leading zeros are fine. */
  function Atoi(s: string): Option<int> {
    var negative := s != [] && s[0] == '-';
    var body := if s != [] && (s[0] == '-' || s[0] == '+') then s[1..] else s;
    if body == [] || !AllDigits(body) then None
    else
      var magnitude: int := DigitsValue(body);
      var n := if negative then -magnitude else magnitude;
      if MIN_INT <= n <= MAX_INT then Some(n) else None
  }

  lemma {:induction false} DigitsRoundTrip(n: nat)
    ensures DigitsValue(Digits(n)) == n
  {
    if n >= 10 {
      DigitsRoundTrip(n / 10);
      assert Digits(n)[..|Digits(n)| - 1] == Digits(n / 10);
    } else {
      assert Digits(n)[..0] == [];
    }
  }

  /** Reading back a printed counter is the identity on every machine integer. */
  lemma ItoaAtoi(n: int)
    requires InRange(n)
    ensures Atoi(Itoa(n)) == Some(n)
  {
    if n < 0 {
      DigitsRoundTrip(-n);
      assert ("-" + Digits(-n))[1..] == Digits(-n);
    } else {
      DigitsRoundTrip(n);
      assert IsDigit(Digits(n)[0]);
    }
  }

  // ---- Which texts are integers ----

  function Zeros(k: nat): (s: string)
    ensures |s| == k && AllDigits(s)
  {
    if k == 0 then [] else Zeros(k - 1) + ['0']
  }

  /** The text of `m` with any number of leading zeros. */
  ghost predicate IsNumeral(s: string, m: nat) {
    exists k: nat :: s == Zeros(k) + Digits(m)
  }

  /** The texts of `n`: leading zeros, and a sign where it agrees with `n`. */
  ghost predicate IsTextOf(s: string, n: int) {
    || (n >= 0 && IsNumeral(s, n))
    || (n >= 0 && s != [] && s[0] == '+' && IsNumeral(s[1..], n))
    || (n <= 0 && s != [] && s[0] == '-' && IsNumeral(s[1..], -n))
  }

  lemma {:induction false} PaddedValue(k: nat, s: string)
    requires AllDigits(s)
    ensures DigitsValue(Zeros(k) + s) == DigitsValue(s)
    decreases |s|, k
  {
    var t := Zeros(k) + s;
    if s != [] {
      assert t[..|t| - 1] == Zeros(k) + s[..|s| - 1];
      PaddedValue(k, s[..|s| - 1]);
    } else if k > 0 {
      assert t == Zeros(k) && Zeros(k)[..k - 1] == Zeros(k - 1) == Zeros(k - 1) + s;
      PaddedValue(k - 1, s);
    }
  }

  lemma OneMoreDigit(front: string, v: nat, d: nat)
    requires IsNumeral(front, v) && d < 10
    ensures IsNumeral(front + [DigitChar(d)], 10 * v + d)
  {
    var k: nat :| front == Zeros(k) + Digits(v);
    var s := front + [DigitChar(d)];
    if v == 0 {
      assert Digits(0) == ['0'] && front == Zeros(k + 1);
      assert s == Zeros(k + 1) + Digits(d);
    } else {
      assert Digits(10 * v + d) == Digits(v) + [DigitChar(d)];
      assert s == Zeros(k) + Digits(10 * v + d);
    }
  }

  /** Digits are the text of their value, up to leading zeros. */
  lemma {:induction false} ValueNumeral(s: string)
    requires s != [] && AllDigits(s)
    ensures IsNumeral(s, DigitsValue(s))
    decreases |s|
  {
    hide IsNumeral;
    var front, d := s[..|s| - 1], s[|s| - 1] as int - '0' as int;
    assert s == front + [DigitChar(d)];
    if front == [] {
      assert DigitsValue(front) == 0;
      OneDigit(d);
      assert s == [DigitChar(d)];
    } else {
      ValueNumeral(front);
      OneMoreDigit(front, DigitsValue(front), d);
    }
  }

  lemma OneDigit(d: nat)
    requires d < 10
    ensures IsNumeral([DigitChar(d)], d)
  {
    assert [DigitChar(d)] == Zeros(0) + Digits(d);
  }

  lemma NumeralValue(s: string, m: nat)
    requires IsNumeral(s, m)
    ensures s != [] && AllDigits(s) && DigitsValue(s) == m
  {
    var k: nat :| s == Zeros(k) + Digits(m);
    PaddedValue(k, Digits(m));
    DigitsRoundTrip(m);
  }

  /** `Atoi` reads exactly the texts of the 64-bit integers. */
  lemma AtoiIff(s: string, n: int)
    ensures Atoi(s) == Some(n) <==> InRange(n) && IsTextOf(s, n)
  {
    hide IsNumeral, Digits, Zeros;
    var body := if s != [] && (s[0] == '-' || s[0] == '+') then s[1..] else s;
    if body != [] && AllDigits(body) {
      ValueNumeral(body);
    }
    if IsTextOf(s, n) {
      if n >= 0 && IsNumeral(s, n) {
        NumeralValue(s, n);
        assert IsDigit(s[0]);
      } else if n >= 0 && s[0] == '+' && IsNumeral(s[1..], n) {
        NumeralValue(s[1..], n);
      } else {
        NumeralValue(s[1..], -n);
      }
    }
  }

  lemma DigitsInjective(m: nat, n: nat)
    requires Digits(m) == Digits(n)
    ensures m == n
  {
    DigitsRoundTrip(m);
    DigitsRoundTrip(n);
  }
}

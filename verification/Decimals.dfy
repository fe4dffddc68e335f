/** Decimal numerals as strings of ASCII digits. */
module Decimals {

  predicate IsDigit(c: char) {
    '0' <= c <= '9'
  }

  predicate AllDigits(s: string) {
    forall i :: 0 <= i < |s| ==> IsDigit(s[i])
  }

  type Digits = s: string | AllDigits(s)

  function DigitValue(c: char): (value: nat)
    requires IsDigit(c)
    ensures value < 10
  {
    (c - '0') as nat
  }

  function DigitOf(n: nat): (c: char)
    requires n < 10
    ensures IsDigit(c) && DigitValue(c) == n
  {
    '0' + n as char
  }

  function Value(s: Digits): nat {
    if s == [] then 0 else 10 * Value(s[..|s| - 1]) + DigitValue(s[|s| - 1])
  }

  /** `str(n)`. */
  function Numeral(n: nat): Digits {
    if n < 10 then [DigitOf(n)] else Numeral(n / 10) + [DigitOf(n % 10)]
  }

  predicate Canonical(s: string) {
    && AllDigits(s)
    && s != []
    && (|s| > 1 ==> s[0] != '0')
  }

  lemma {:induction false} NumeralValue(n: nat)
    ensures Canonical(Numeral(n)) && Value(Numeral(n)) == n
    ensures n > 0 ==> Numeral(n)[0] != '0'
  {
    if n >= 10 {
      NumeralValue(n / 10);
      assert Numeral(n)[..|Numeral(n)| - 1] == Numeral(n / 10);
    } else {
      assert Numeral(n)[..0] == [];
    }
  }

  /** Canonical numerals are exactly the ones `str` writes. */
  lemma {:induction false} NumeralOfValue(s: Digits)
    requires Canonical(s)
    ensures Numeral(Value(s)) == s
    ensures s[0] != '0' ==> Value(s) > 0
  {
    var init, last := s[..|s| - 1], s[|s| - 1];
    assert s == init + [last];
    if init == [] {
      assert Value(s) == DigitValue(last);
    } else {
      NumeralOfValue(init);
      assert Value(init) > 0;
    }
  }

  function Power10(n: nat): nat {
    if n == 0 then 1 else 10 * Power10(n - 1)
  }

  function Zeros(n: nat): (s: Digits)
    ensures |s| == n && forall i :: 0 <= i < n ==> s[i] == '0'
  {
    if n == 0 then [] else Zeros(n - 1) + ['0']
  }

  lemma ZerosSplit(m: nat, n: nat)
    ensures Zeros(m) + Zeros(n) == Zeros(m + n)
  {
  }

  lemma TenTimes(a: nat, b: nat)
    ensures 10 * (a * b) == a * (10 * b)
  {
  }

  lemma {:induction false} ValueConcat(a: Digits, b: Digits)
    ensures Value(a + b) == Value(a) * Power10(|b|) + Value(b)
  {
    if b == [] {
      assert a + b == a;
    } else {
      var n := |b| - 1;
      var init: Digits := b[..n];
      assert (a + b)[..|a| + n] == a + init && (a + b)[|a| + n] == b[n];
      ValueConcat(a, init);
      var shifted := Value(a) * Power10(n);
      assert Value(a + b) == 10 * (shifted + Value(init)) + DigitValue(b[n]);
      TenTimes(Value(a), Power10(n));
      assert Value(b) == 10 * Value(init) + DigitValue(b[n]);
    }
  }

  lemma {:induction false} ZerosValue(n: nat)
    ensures Value(Zeros(n)) == 0
  {
    if n > 0 {
      assert Zeros(n)[..n - 1] == Zeros(n - 1);
      ZerosValue(n - 1);
    }
  }

  lemma ValueShifted(s: Digits, n: nat)
    ensures Value(s + Zeros(n)) == Value(s) * Power10(n)
  {
    ValueConcat(s, Zeros(n));
    ZerosValue(n);
  }

  lemma PowersMultiply(m: nat, n: nat)
    ensures Power10(m) * Power10(n) == Power10(m + n)
  {
    if n > 0 {
      PowersMultiply(m, n - 1);
      assert Power10(m) * (10 * Power10(n - 1)) == 10 * (Power10(m) * Power10(n - 1));
    } else {
      assert Power10(m) * 1 == Power10(m);
    }
  }

  lemma TwoShifts(c: nat, m: nat, n: nat)
    ensures c * Power10(m) * Power10(n) == c * Power10(n + m)
  {
    PowersMultiply(m, n);
    assert c * Power10(m) * Power10(n) == c * (Power10(m) * Power10(n));
  }

  /** The coefficient's digits: no leading zero, but `0` for zero. */
  function StripLeading(s: Digits): (stripped: Digits)
    requires s != []
    ensures Canonical(stripped)
  {
    if |s| > 1 && s[0] == '0' then StripLeading(s[1..]) else s
  }

  lemma {:induction false} LeadingZero(s: Digits)
    ensures Value(['0'] + s) == Value(s)
  {
    if s == [] {
      assert ['0'] + s == ['0'];
      assert ['0'][..0] == [];
    } else {
      LeadingZero(s[..|s| - 1]);
      assert (['0'] + s)[..|s|] == ['0'] + s[..|s| - 1];
    }
  }

  lemma {:induction false} LeadingZeros(n: nat, s: Digits)
    ensures Value(Zeros(n) + s) == Value(s)
  {
    if n == 0 {
      assert Zeros(0) + s == s;
    } else {
      assert Zeros(n) + s == ['0'] + (Zeros(n - 1) + s);
      LeadingZero(Zeros(n - 1) + s);
      LeadingZeros(n - 1, s);
    }
  }

  lemma {:induction false} StripLeadingValue(s: Digits)
    requires s != []
    ensures Value(StripLeading(s)) == Value(s)
  {
    if |s| > 1 && s[0] == '0' {
      StripLeadingValue(s[1..]);
      assert s == ['0'] + s[1..];
      LeadingZero(s[1..]);
    }
  }

  /** `rstrip("0")`. */
  function StripTrailing(s: Digits): (stripped: Digits)
    ensures |stripped| <= |s| && stripped == s[..|stripped|]
    ensures forall i :: |stripped| <= i < |s| ==> s[i] == '0'
    ensures stripped != [] ==> stripped[|stripped| - 1] != '0'
  {
    if s != [] && s[|s| - 1] == '0' then StripTrailing(s[..|s| - 1]) else s
  }

  lemma {:induction false} StripTrailingZeros(s: Digits, n: nat)
    ensures StripTrailing(s + Zeros(n)) == StripTrailing(s)
  {
    if n == 0 {
      assert s + Zeros(0) == s;
    } else {
      assert (s + Zeros(n))[..|s| + n - 1] == s + Zeros(n - 1);
      StripTrailingZeros(s, n - 1);
    }
  }

  datatype Printed = Printed(integer: Digits, fraction: Digits)

  /** `format(value, "f")`, cut at its point. */
  function Rendered(digits: Digits, exponent: int): Printed {
    if exponent >= 0 then Printed(digits + Zeros(exponent), [])
    else if |digits| > -exponent then Printed(digits[..|digits| + exponent], digits[|digits| + exponent..])
    else Printed(['0'], Zeros(-exponent - |digits|) + digits)
  }

  lemma RenderedPlaces(digits: Digits, places: nat)
    requires Canonical(digits) && places > 0
    ensures var printed := Rendered(digits, -(places as int));
            && Canonical(printed.integer)
            && |printed.fraction| == places
            && Value(printed.integer + printed.fraction) == Value(digits)
  {
    var printed := Rendered(digits, -(places as int));
    if |digits| > places {
      assert printed.integer + printed.fraction == digits;
    } else {
      LeadingZero(printed.fraction);
      LeadingZeros(places - |digits|, digits);
    }
  }
}

/** Exact token prices: decimal text against atomic units (agentonomy_commerce/service_pricing.py). */
module ServicePricing {
  import opened Wrappers
  import opened Decimals

  const ATOMIC_SCALE: int := 6

  datatype PriceError =
    | WrongType | NotFixedPoint | NotFiniteOrNegative | TooPrecise | NotPositive | NotCanonical | Missing | Disagree

  /** A `decimal.Decimal`: its sign, the digits of its coefficient and its exponent, or a special value. */
  datatype RawDecimal = Finite(negative: bool, digits: string, exponent: int) | Special
  {
    predicate Valid() {
      Finite? ==> Canonical(digits)
    }

    predicate Zero() {
      Finite? && digits == ['0']
    }
  }

  type Decimal = d: RawDecimal | d.Valid() witness Special

  /** What a caller may pass where a price or an amount is expected. */
  datatype Field = Text(text: string) | Integer(int) | DecimalNumber(decimal: Decimal) | OtherObject

  // ---------------------------------------------------------------- parsing

  function PointIndex(s: string): (p: nat)
    ensures p <= |s|
    ensures p < |s| ==> s[p] == '.'
    ensures forall i :: 0 <= i < p ==> s[i] != '.'
  {
    if s == [] || s[0] == '.' then 0 else 1 + PointIndex(s[1..])
  }

  /** The pattern: digits, and then optionally a point and more digits. */
  predicate FixedPoint(s: string) {
    var p := PointIndex(s);
    && p > 0
    && AllDigits(s[..p])
    && (p < |s| ==> p + 1 < |s| && AllDigits(s[p + 1..]))
  }

  function Whole(s: string): Digits
    requires FixedPoint(s)
  {
    s[..PointIndex(s)]
  }

  function Fraction(s: string): Digits
    requires FixedPoint(s)
  {
    if PointIndex(s) < |s| then s[PointIndex(s) + 1..] else []
  }

  function DecimalOf(s: string): Decimal
    requires FixedPoint(s)
  {
    Finite(false, StripLeading(Whole(s) + Fraction(s)), -|Fraction(s)|)
  }

  /** `_reject_non_decimal`. */
  function RejectNonDecimal(value: Field): (parsed: Result<Decimal, PriceError>)
    ensures parsed.Ok? ==> parsed.value.Finite? && (parsed.value.negative ==> parsed.value.Zero())
  {
    match value
    case Text(text) => if FixedPoint(text) then Ok(DecimalOf(text)) else Err(NotFixedPoint)
    case DecimalNumber(decimal) =>
      if decimal.Special? || (decimal.negative && !decimal.Zero()) then Err(NotFiniteOrNegative) else Ok(decimal)
    case _ => Err(WrongType)
  }

  // ---------------------------------------------------------------- atomic units

  /** The atomic units of a decimal that needs no rounding. */
  function AtomicUnits(digits: Digits, exponent: int, allowZero: bool): Result<nat, PriceError> {
    if exponent < -ATOMIC_SCALE then Err(TooPrecise) else
      var atomic := Value(digits) * Power10(ATOMIC_SCALE + exponent);
      if !allowZero && atomic == 0 then Err(NotPositive) else Ok(atomic)
  }

  /** `_atomic_from_decimal`, which rebuilds the coefficient digit by digit. */
  method AtomicFromDecimal(digits: Digits, exponent: int, allowZero: bool) returns (result: Result<nat, PriceError>)
    ensures result == AtomicUnits(digits, exponent, allowZero)
  {
    var coefficient := 0;
    for i := 0 to |digits|
      invariant coefficient == Value(digits[..i])
    {
      assert digits[..i + 1][..i] == digits[..i];
      coefficient := coefficient * 10 + DigitValue(digits[i]);
    }
    assert digits[..|digits|] == digits;
    var atomic;
    if exponent >= 0 {
      atomic := coefficient * Power10(exponent) * Power10(ATOMIC_SCALE);
      TwoShifts(coefficient, exponent, ATOMIC_SCALE);
    } else {
      var scale := -exponent;
      if scale > ATOMIC_SCALE {
        return Err(TooPrecise);
      }
      atomic := coefficient * Power10(ATOMIC_SCALE - scale);
    }
    if !allowZero && atomic <= 0 {
      return Err(NotPositive);
    }
    return Ok(atomic);
  }

  /** `_decimal_from_atomic`. */
  function DecimalFromAtomic(atomic: nat): Decimal {
    NumeralValue(atomic);
    Finite(false, Numeral(atomic), -ATOMIC_SCALE)
  }

  // ---------------------------------------------------------------- printing

  function Padded(fraction: Digits): Digits {
    if |fraction| < 2 then fraction + Zeros(2 - |fraction|) else fraction
  }

  function PriceText(digits: Digits, exponent: int): string {
    var printed := Rendered(digits, exponent);
    printed.integer + "." + Padded(StripTrailing(printed.fraction))
  }

  /** `format_token_amount`. */
  function FormatTokenAmount(value: Field, allowZero: bool): Result<string, PriceError> {
    var parsed :- RejectNonDecimal(value);
    var atomic :- AtomicUnits(parsed.digits, parsed.exponent, allowZero);
    if atomic == 0 then Ok("0.00") else Ok(PriceText(parsed.digits, parsed.exponent))
  }

  datatype Terms = Terms(priceUsd: string, amountAtomic: string)

  /** `price_terms`. */
  function PriceTerms(price: Field): Result<Terms, PriceError> {
    if !price.Text? then Err(WrongType) else
      var parsed :- RejectNonDecimal(price);
      var atomic :- AtomicUnits(parsed.digits, parsed.exponent, false);
      var formatted :- FormatTokenAmount(DecimalNumber(parsed), false);
      Ok(Terms(formatted, Numeral(atomic)))
  }

  /** `_canonical_atomic`. */
  function CanonicalAtomic(value: Field): Result<nat, PriceError> {
    match value
    case Integer(n) => if n > 0 then Ok(n) else Err(NotPositive)
    case Text(text) =>
      if !Canonical(text) then Err(NotCanonical)
      else if Value(text) == 0 then Err(NotPositive)
      else Ok(Value(text))
    case _ => Err(NotCanonical)
  }

  /** `atomic_price_terms`. */
  function AtomicPriceTerms(amount: Field): Result<Terms, PriceError> {
    var atomic :- CanonicalAtomic(amount);
    var formatted :- FormatTokenAmount(DecimalNumber(DecimalFromAtomic(atomic)), false);
    Ok(Terms(formatted, Numeral(atomic)))
  }

  /** `payment_terms`. */
  function PaymentTerms(payment: map<string, Field>): Result<Terms, PriceError> {
    if "price_usd" !in payment || "amount_atomic" !in payment then Err(Missing) else
      var decimalTerms :- PriceTerms(payment["price_usd"]);
      var atomicTerms :- AtomicPriceTerms(payment["amount_atomic"]);
      if decimalTerms.amountAtomic != atomicTerms.amountAtomic then Err(Disagree) else Ok(decimalTerms)
  }

  // ---------------------------------------------------------------- the text depends on the value only

  /** Writing out the six decimal places of a positive amount changes no digit of its text. */
  lemma TextOfSixPlaces(digits: Digits, exponent: int)
    requires Canonical(digits) && digits != ['0'] && -ATOMIC_SCALE <= exponent <= 0
    ensures PriceText(digits + Zeros(ATOMIC_SCALE + exponent), -ATOMIC_SCALE) == PriceText(digits, exponent)
  {
    var n := ATOMIC_SCALE + exponent;
    var short, full := Rendered(digits, exponent), Rendered(digits + Zeros(n), -ATOMIC_SCALE);
    assert full.integer == short.integer;
    assert full.fraction == short.fraction + Zeros(n);
    StripTrailingZeros(short.fraction, n);
  }

  lemma TextOfWholeUnits(digits: Digits, exponent: nat)
    ensures PriceText(digits + Zeros(exponent), 0) == PriceText(digits, exponent)
  {
    assert digits + Zeros(exponent) + Zeros(0) == digits + Zeros(exponent);
  }

  lemma ShiftedNumeral(digits: Digits, n: nat)
    requires Canonical(digits) && digits != ['0']
    ensures Value(digits) * Power10(n) > 0
    ensures Numeral(Value(digits) * Power10(n)) == digits + Zeros(n)
  {
    ValueShifted(digits, n);
    NumeralOfValue(digits + Zeros(n));
  }

  /** The text of a positive amount, as `atomic_price_terms` writes it. */
  function AtomicText(atomic: nat): string {
    PriceText(Numeral(atomic), -ATOMIC_SCALE)
  }

  /** The printed text is a function of the atomic value, whatever digits and exponent carried it. */
  lemma TextOfAtomic(digits: Digits, exponent: int)
    requires Canonical(digits) && digits != ['0'] && exponent >= -ATOMIC_SCALE
    ensures var atomic := Value(digits) * Power10(ATOMIC_SCALE + exponent);
            atomic > 0 && PriceText(digits, exponent) == AtomicText(atomic)
  {
    hide Value, Power10, PriceText, Zeros, Numeral;
    if exponent <= 0 {
      TextOfSixPlaces(digits, exponent);
      ShiftedNumeral(digits, ATOMIC_SCALE + exponent);
    } else {
      TextOfWholeUnits(digits, exponent);
      TextOfSixPlaces(digits + Zeros(exponent), 0);
      assert digits + Zeros(exponent) + Zeros(ATOMIC_SCALE) == digits + Zeros(ATOMIC_SCALE + exponent) by {
        ZerosSplit(exponent, ATOMIC_SCALE);
      }
      ShiftedNumeral(digits, ATOMIC_SCALE + exponent);
    }
  }

  lemma ZeroValue(digits: Digits, n: nat)
    requires Canonical(digits)
    ensures Value(digits) * Power10(n) == 0 <==> digits == ['0']
  {
    if digits != ['0'] {
      ShiftedNumeral(digits, n);
    } else {
      assert digits[..0] == [];
    }
  }

  /** Every accepted amount is printed as its atomic value is. */
  lemma FormatIsAtomicText(value: Field, allowZero: bool)
    ensures var formatted := FormatTokenAmount(value, allowZero);
            var parsed := RejectNonDecimal(value);
            && (formatted.Ok? <==> parsed.Ok? && AtomicUnits(parsed.value.digits, parsed.value.exponent, allowZero).Ok?)
            && (formatted.Ok? ==>
                var atomic := AtomicUnits(parsed.value.digits, parsed.value.exponent, allowZero).value;
                formatted.value == if atomic == 0 then "0.00" else AtomicText(atomic))
  {
    hide Value, Power10, PriceText, AtomicText;
    var parsed := RejectNonDecimal(value);
    if parsed.Ok? && parsed.value.exponent >= -ATOMIC_SCALE {
      var digits, exponent := parsed.value.digits, parsed.value.exponent;
      ZeroValue(digits, ATOMIC_SCALE + exponent);
      if digits != ['0'] {
        TextOfAtomic(digits, exponent);
      }
    }
  }

  // ---------------------------------------------------------------- the text parses back

  /** A price in canonical form: no leading zero, two to six decimals, no trailing zero past the second. */
  predicate CanonicalPrice(s: string) {
    && FixedPoint(s)
    && Canonical(Whole(s))
    && 2 <= |Fraction(s)| <= ATOMIC_SCALE
    && (|Fraction(s)| > 2 ==> Fraction(s)[|Fraction(s)| - 1] != '0')
  }

  /** The atomic value that `price_terms` reads from a text. */
  function AtomicOf(s: string): nat
    requires FixedPoint(s) && |Fraction(s)| <= ATOMIC_SCALE
  {
    Value(Whole(s) + Fraction(s)) * Power10(ATOMIC_SCALE - |Fraction(s)|)
  }

  lemma Joined(integer: Digits, fraction: Digits)
    requires integer != [] && fraction != []
    ensures var s := integer + "." + fraction;
            FixedPoint(s) && Whole(s) == integer && Fraction(s) == fraction
  {
    PointOf(integer, fraction);
    var s := integer + "." + fraction;
    assert s[..|integer|] == integer;
    assert s[|integer| + 1..] == fraction;
  }

  lemma {:induction false} PointOf(integer: Digits, fraction: Digits)
    ensures PointIndex(integer + "." + fraction) == |integer|
  {
    var s := integer + "." + fraction;
    if integer != [] {
      assert s[1..] == integer[1..] + "." + fraction;
      PointOf(integer[1..], fraction);
    }
  }

  lemma PaddedStripped(fraction: Digits)
    requires |fraction| == ATOMIC_SCALE
    ensures var kept := Padded(StripTrailing(fraction));
            && 2 <= |kept| <= ATOMIC_SCALE
            && kept + Zeros(ATOMIC_SCALE - |kept|) == fraction
            && (|kept| > 2 ==> kept[|kept| - 1] != '0')
  {
  }

  /** The text of an atomic amount is canonical and reads back as that amount. */
  lemma AtomicTextReadsBack(atomic: nat)
    ensures CanonicalPrice(AtomicText(atomic)) && AtomicOf(AtomicText(atomic)) == atomic
  {
    hide Rendered, Value, Power10, StripTrailing, Padded, FixedPoint, Whole, Fraction, Numeral;
    NumeralValue(atomic);
    var digits := Numeral(atomic);
    RenderedPlaces(digits, ATOMIC_SCALE);
    var printed := Rendered(digits, -ATOMIC_SCALE);
    PaddedStripped(printed.fraction);
    var kept := Padded(StripTrailing(printed.fraction));
    Joined(printed.integer, kept);
    ValueShifted(printed.integer + kept, ATOMIC_SCALE - |kept|);
    assert printed.integer + kept + Zeros(ATOMIC_SCALE - |kept|) == printed.integer + printed.fraction;
  }

  /** `price_terms` accepts exactly the fixed-point texts of at most six decimals with a positive value,
      and prints that value. */
  lemma PriceTermsOf(s: string)
    ensures PriceTerms(Text(s)).Ok? <==> FixedPoint(s) && |Fraction(s)| <= ATOMIC_SCALE && AtomicOf(s) > 0
    ensures PriceTerms(Text(s)).Ok? ==> PriceTerms(Text(s)).value == Terms(AtomicText(AtomicOf(s)), Numeral(AtomicOf(s)))
  {
    if FixedPoint(s) {
      StripLeadingValue(Whole(s) + Fraction(s));
      FormatIsAtomicText(DecimalNumber(DecimalOf(s)), false);
    }
  }

  lemma AtomicPriceTermsOf(n: nat)
    requires n > 0
    ensures AtomicPriceTerms(Integer(n)) == Ok(Terms(AtomicText(n), Numeral(n)))
    ensures AtomicPriceTerms(Text(Numeral(n))) == Ok(Terms(AtomicText(n), Numeral(n)))
  {
    NumeralValue(n);
    FormatIsAtomicText(DecimalNumber(DecimalFromAtomic(n)), false);
    assert Value(Numeral(n)) * Power10(0) == n;
  }

  /** A price in full: a million units for each whole token, and each of up to six decimals in its place. */
  lemma PriceInUnits(s: string)
    requires FixedPoint(s)
    ensures PriceTerms(Text(s)).Ok? <==>
            |Fraction(s)| <= 6 && Value(Whole(s)) * 1_000_000 + Value(Fraction(s)) * Power10(6 - |Fraction(s)|) > 0
    ensures PriceTerms(Text(s)).Ok? ==>
              PriceTerms(Text(s)).value.amountAtomic
              == Numeral(Value(Whole(s)) * 1_000_000 + Value(Fraction(s)) * Power10(6 - |Fraction(s)|))
  {
    hide PriceTerms, Whole, Fraction;
    PriceTermsOf(s);
    var whole, fraction := Whole(s), Fraction(s);
    if |fraction| <= 6 {
      var rest := 6 - |fraction|;
      ValueConcat(whole, fraction);
      PowersMultiply(|fraction|, rest);
      MillionIs();
      Spread(Value(whole), Power10(|fraction|), Value(fraction), Power10(rest));
    }
  }

  lemma MillionIs()
    ensures Power10(6) == 1_000_000
  {
    assert Power10(1) == 10;
    assert Power10(2) == 100;
    assert Power10(3) == 1_000;
    assert Power10(4) == 10_000;
    assert Power10(5) == 100_000;
  }

  lemma Spread(whole: nat, shift: nat, fraction: nat, rest: nat)
    ensures (whole * shift + fraction) * rest == whole * (shift * rest) + fraction * rest
  {
  }

  // ---------------------------------------------------------------- the laws

  /** Price text and atomic units undo each other, for every positive amount, and `payment_terms`
      accepts the pair. */
  lemma PriceRoundTrip(n: nat)
    requires n > 0
    ensures var terms := AtomicPriceTerms(Integer(n));
            && terms.Ok?
            && terms.value.amountAtomic == Numeral(n)
            && PriceTerms(Text(terms.value.priceUsd)) == terms
            && PaymentTerms(map["price_usd" := Text(terms.value.priceUsd), "amount_atomic" := Integer(n)]) == terms
            && PaymentTerms(
                 map["price_usd" := Text(terms.value.priceUsd), "amount_atomic" := Text(terms.value.amountAtomic)]) == terms
  {
    hide PriceTerms, AtomicPriceTerms, AtomicText, AtomicOf, FixedPoint;
    AtomicPriceTermsOf(n);
    AtomicTextReadsBack(n);
    PriceTermsOf(AtomicText(n));
  }

  /** Two accepted texts are printed alike exactly when their atomic values agree. */
  lemma SameTextIffSameValue(s: string, t: string)
    requires PriceTerms(Text(s)).Ok? && PriceTerms(Text(t)).Ok?
    ensures PriceTerms(Text(s)).value.priceUsd == PriceTerms(Text(t)).value.priceUsd
            <==> PriceTerms(Text(s)).value.amountAtomic == PriceTerms(Text(t)).value.amountAtomic
  {
    PriceTermsOf(s);
    PriceTermsOf(t);
    AtomicTextReadsBack(AtomicOf(s));
    AtomicTextReadsBack(AtomicOf(t));
    NumeralValue(AtomicOf(s));
    NumeralValue(AtomicOf(t));
  }

  /** The printed price is canonical, and parsing it again gives the same terms. */
  lemma PrintedPriceIsFixedPoint(s: string)
    requires PriceTerms(Text(s)).Ok?
    ensures CanonicalPrice(PriceTerms(Text(s)).value.priceUsd)
    ensures PriceTerms(Text(PriceTerms(Text(s)).value.priceUsd)) == PriceTerms(Text(s))
  {
    PriceTermsOf(s);
    AtomicTextReadsBack(AtomicOf(s));
    PriceTermsOf(AtomicText(AtomicOf(s)));
  }

  /** Exactly the canonical texts are printed unchanged. */
  lemma CanonicalIffUnchanged(s: string)
    requires PriceTerms(Text(s)).Ok?
    ensures PriceTerms(Text(s)).value.priceUsd == s <==> CanonicalPrice(s)
  {
    PrintedPriceIsFixedPoint(s);
    if CanonicalPrice(s) {
      PriceTermsOf(s);
      CanonicalIsPrinted(s);
    }
  }

  /** A canonical text is the text of the amount it reads as. */
  lemma CanonicalIsPrinted(s: string)
    requires CanonicalPrice(s)
    ensures AtomicText(AtomicOf(s)) == s
  {
    hide Rendered, Numeral, Value, Power10, StripTrailing, Padded, Zeros;
    var n := ATOMIC_SCALE - |Fraction(s)|;
    var padded := Fraction(s) + Zeros(n);
    ValueShifted(Whole(s) + Fraction(s), n);
    assert Whole(s) + Fraction(s) + Zeros(n) == Whole(s) + padded;
    RenderedWhole(Whole(s), padded);
    CanonicalFraction(Fraction(s), n);
    assert s == Whole(s) + "." + Fraction(s);
  }

  lemma CanonicalFraction(fraction: Digits, n: nat)
    requires |fraction| >= 2 && (|fraction| > 2 ==> fraction[|fraction| - 1] != '0')
    ensures Padded(StripTrailing(fraction + Zeros(n))) == fraction
  {
    StripTrailingZeros(fraction, n);
  }

  lemma RenderedWhole(integer: Digits, fraction: Digits)
    requires Canonical(integer) && |fraction| == ATOMIC_SCALE
    ensures Rendered(Numeral(Value(integer + fraction)), -ATOMIC_SCALE) == Printed(integer, fraction)
  {
    if integer[0] != '0' {
      NumeralOfValue(integer + fraction);
    } else {
      assert integer == ['0'];
      LeadingZero(fraction);
      StripLeadingValue(fraction);
      NumeralOfValue(StripLeading(fraction));
      StrippedPart(fraction);
    }
  }

  lemma {:induction false} StrippedPart(s: Digits)
    requires s != []
    ensures |StripLeading(s)| <= |s| && Zeros(|s| - |StripLeading(s)|) + StripLeading(s) == s
  {
    if |s| > 1 && s[0] == '0' {
      StrippedPart(s[1..]);
      assert s == ['0'] + s[1..];
    }
  }

  /** `payment_terms` accepts exactly when both parts are accepted and name the same amount; what it
      returns is what the atomic amount alone determines. */
  lemma PaymentTermsAgree(payment: map<string, Field>)
    requires "price_usd" in payment && "amount_atomic" in payment
    ensures var price, amount := PriceTerms(payment["price_usd"]), AtomicPriceTerms(payment["amount_atomic"]);
            && (PaymentTerms(payment).Ok? <==> price.Ok? && amount.Ok? && price == amount)
            && (PaymentTerms(payment).Ok? ==> PaymentTerms(payment) == amount)
  {
    var price, amount := payment["price_usd"], payment["amount_atomic"];
    if PriceTerms(price).Ok? && AtomicPriceTerms(amount).Ok? {
      PriceTermsOf(price.text);
      var n := CanonicalAtomic(amount).value;
      AtomicTermsAre(amount);
      NumeralValue(AtomicOf(price.text));
      NumeralValue(n);
    }
  }

  lemma AtomicTermsAre(amount: Field)
    requires CanonicalAtomic(amount).Ok?
    ensures var n := CanonicalAtomic(amount).value; AtomicPriceTerms(amount) == Ok(Terms(AtomicText(n), Numeral(n)))
  {
    AtomicPriceTermsOf(CanonicalAtomic(amount).value);
  }
}

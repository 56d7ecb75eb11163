/**
 Deterministic pricing: the suggested USD amount, its conversion into the report's
 currency, and the USD price an auditor is shown. Amounts are integer minor units,
 rates are exact reals.
 */
module Pricing {
  import opened Wrappers

  type Rate = r: real | 0.0 < r witness 1.0

  datatype FxError = UnsupportedCurrency

  datatype Code = Usd | Rub

  const USD_CENTS_PER_WORK_UNIT: int := 500

  function SuggestedAmountCents(workUnits: Option<int>): Option<int> {
    if workUnits.None? || workUnits.value <= 0 then None
    else Some(workUnits.value * USD_CENTS_PER_WORK_UNIT)
  }

  function UpperChar(c: char): char {
    if 'a' <= c <= 'z' then (c as int - 32) as char else c
  }

  function Upper(s: string): string {
    seq(|s|, i requires 0 <= i < |s| => UpperChar(s[i]))
  }

  /** The supported currency a code stands for, in either case. */
  function Recognised(currency: string): Option<Code> {
    if Upper(currency) == "USD" then Some(Usd)
    else if Upper(currency) == "RUB" then Some(Rub)
    else None
  }

  /** Nearest integer, ties away from zero. */
  function RoundHalfUp(x: real): int {
    if x >= 0.0 then (x + 0.5).Floor else -(0.5 - x).Floor
  }

  /** Minor units of `x` rounded to two decimals. */
  function QuantizeCents(x: real): int {
    RoundHalfUp(x * 100.0)
  }

  function ToRub(usdCents: int, rate: Rate): int {
    RoundHalfUp(usdCents as real * rate)
  }

  function ConvertUsdCents(usdCents: Option<int>, currency: string, rate: Rate): Result<Option<int>, FxError> {
    if usdCents.None? then Success(None)
    else match Recognised(currency)
         case Some(Usd) => Success(usdCents)
         case Some(Rub) => Success(Some(ToRub(usdCents.value, rate)))
         case None => Failure(UnsupportedCurrency)
  }

  function PriceFromUsd(cents: int): int {
    QuantizeCents(cents as real / 100.0)
  }

  function PriceFromRub(cents: int, rate: Rate): int {
    QuantizeCents(cents as real / 100.0 / rate)
  }

  /** A USD price in cents, or none when there is no amount or the currency is unknown. */
  function ProvidedPriceUsd(amountCents: Option<int>, currency: string, rate: Rate): Option<int> {
    if amountCents.None? then None
    else match Recognised(currency)
         case Some(Usd) => Some(PriceFromUsd(amountCents.value))
         case Some(Rub) => Some(PriceFromRub(amountCents.value, rate))
         case None => None
  }

  /** There is no suggestion exactly without a positive count; one unit costs five dollars, and counts add up. */
  lemma SuggestionsAddUp(a: int, b: int)
    ensures SuggestedAmountCents(None).None?
    ensures SuggestedAmountCents(Some(a)).None? <==> a <= 0
    ensures SuggestedAmountCents(Some(1)) == Some(500)
    ensures a > 0 && b > 0 ==>
              && SuggestedAmountCents(Some(a)).value > 0
              && SuggestedAmountCents(Some(a + b))
                 == Some(SuggestedAmountCents(Some(a)).value + SuggestedAmountCents(Some(b)).value)
  {
  }

  /** The two supported codes, letter by letter and in either case. */
  lemma RecognisedIff(currency: string)
    ensures Recognised(currency) == Some(Usd) <==>
            |currency| == 3 && currency[0] in "uU" && currency[1] in "sS" && currency[2] in "dD"
    ensures Recognised(currency) == Some(Rub) <==>
            |currency| == 3 && currency[0] in "rR" && currency[1] in "uU" && currency[2] in "bB"
  {
    assert Upper(currency) == "USD" <==>
           |currency| == 3 && Upper(currency)[0] == 'U' && Upper(currency)[1] == 'S' && Upper(currency)[2] == 'D';
    assert Upper(currency) == "RUB" <==>
           |currency| == 3 && Upper(currency)[0] == 'R' && Upper(currency)[1] == 'U' && Upper(currency)[2] == 'B';
  }

  /** Exactly half a unit is rounded away from zero. */
  lemma TiesAwayFromZero(k: nat)
    ensures RoundHalfUp(k as real + 0.5) == k + 1
    ensures RoundHalfUp(-(k as real) - 0.5) == -((k + 1) as int)
  {
  }

  /** What an amount drafted for a number of work units may be, in the report's currency. */
  predicate Priced(units: Option<int>, currency: string, rate: Rate, amount: Option<int>) {
    if units.None? || units.value <= 0 then amount.None?
    else
      amount.Some? &&
      match Recognised(currency)
      case Some(Usd) => amount.value == 500 * units.value
      case Some(Rub) => -0.5 <= 500.0 * units.value as real * rate - amount.value as real < 0.5
      case None => false
  }

  lemma DraftedAmountIsPriced(units: Option<int>, currency: string, rate: Rate)
    requires ConvertUsdCents(SuggestedAmountCents(units), currency, rate).Success?
    ensures Priced(units, currency, rate, ConvertUsdCents(SuggestedAmountCents(units), currency, rate).value)
  {
    hide Recognised;
    if units.Some? && units.value > 0 {
      var x := (500 * units.value) as real * rate;
      assert x == 500.0 * units.value as real * rate && x >= 0.0;
      assert ToRub(500 * units.value, rate) == (x + 0.5).Floor;
    }
  }

  /** A dollar price is the amount itself, or the amount divided by the rate to the nearest cent; otherwise none. */
  lemma PriceAccurate(amountCents: Option<int>, currency: string, rate: Rate)
    ensures match ProvidedPriceUsd(amountCents, currency, rate)
            case None => amountCents.None? || Recognised(currency).None?
            case Some(price) =>
              amountCents.Some? &&
              match Recognised(currency)
              case Some(Usd) => price == amountCents.value
              case Some(Rub) => -0.5 <= amountCents.value as real / rate - price as real <= 0.5
              case None => false
  {
    hide Recognised;
    if amountCents.Some? {
      CentsExact(amountCents.value);
      DivisionCommutes(amountCents.value as real, rate);
      RoundHalfUpNearest(amountCents.value as real / rate, 0);
    }
  }

  lemma RoundHalfUpNearest(x: real, k: int)
    ensures -0.5 <= x - RoundHalfUp(x) as real <= 0.5
    ensures k as real - 0.5 < x < k as real + 0.5 ==> RoundHalfUp(x) == k
  {
    var n := RoundHalfUp(x);
    if k as real - 0.5 < x < k as real + 0.5 {
      assert -1.0 < (n - k) as real < 1.0;
    }
  }

  lemma RoundHalfUpMonotone(x: real, y: real)
    requires x <= y
    ensures RoundHalfUp(x) <= RoundHalfUp(y)
  {
  }

  lemma ScaleMonotone(x: real, y: real, k: real)
    requires x <= y && 0.0 <= k
    ensures x * k <= y * k
  {
  }

  lemma ToRubMonotone(a: int, b: int, rate: Rate)
    requires a <= b
    ensures ToRub(a, rate) <= ToRub(b, rate)
  {
    ScaleMonotone(a as real, b as real, rate);
    RoundHalfUpMonotone(a as real * rate, b as real * rate);
  }

  /** Conversion never reorders two amounts, and fails on one exactly when it fails on the other. */
  lemma ConversionMonotone(a: int, b: int, currency: string, rate: Rate)
    requires a <= b
    ensures match (ConvertUsdCents(Some(a), currency, rate), ConvertUsdCents(Some(b), currency, rate))
            case (Success(Some(x)), Success(Some(y))) => x <= y
            case (Failure(_), Failure(_)) => Recognised(currency).None?
            case _ => false
  {
    ToRubMonotone(a, b, rate);
  }

  /** The converted amount is within half a minor unit of the exact product, and no suggestion stays none. */
  lemma ConversionAccurate(usdCents: Option<int>, currency: string, rate: Rate)
    ensures match ConvertUsdCents(usdCents, currency, rate)
            case Failure(_) => usdCents.Some? && Recognised(currency).None?
            case Success(None) => usdCents.None?
            case Success(Some(converted)) =>
              && usdCents.Some? && Recognised(currency).Some?
              && var exact := usdCents.value as real * (if Recognised(currency).value == Usd then 1.0 else rate);
                 -0.5 <= exact - converted as real <= 0.5
  {
    if usdCents.Some? {
      RoundHalfUpNearest(usdCents.value as real * rate, 0);
    }
  }

  /** Dividing a value close to `c * rate` by a rate above one lands strictly within half of `c`. */
  lemma DivideBack(c: int, m: int, rate: Rate)
    requires 1.0 < rate
    requires -0.5 <= m as real - c as real * rate <= 0.5
    ensures c as real - 0.5 < m as real / rate < c as real + 0.5
  {
    var q := m as real / rate;
    assert q * rate == m as real;
    var d := q - c as real;
    assert d * rate == m as real - c as real * rate;
    if d >= 0.5 {
      ScaleMonotone(0.5, d, rate);
    } else if d <= -0.5 {
      ScaleMonotone(d, -0.5, rate);
    }
  }

  lemma DivisionCommutes(m: real, rate: Rate)
    ensures (m / 100.0 / rate) * 100.0 == m / rate
  {
    var q := m / rate;
    assert q * rate == m;
    assert (q / 100.0) * rate == m / 100.0;
  }

  lemma CentsExact(c: int)
    ensures PriceFromUsd(c) == c
  {
    assert c as real / 100.0 * 100.0 == c as real;
    RoundHalfUpNearest(c as real, c);
  }

  /** Converting to rubles and back at a rate of one or more returns the same cents. */
  lemma RubRoundTrip(c: int, rate: Rate)
    requires 1.0 <= rate
    ensures PriceFromRub(ToRub(c, rate), rate) == c
  {
    var exact := c as real * rate;
    var m := RoundHalfUp(exact);
    RoundHalfUpNearest(exact, c);
    DivisionCommutes(m as real, rate);
    if rate == 1.0 {
      assert exact == c as real;
      assert m as real / rate == c as real;
    } else {
      DivideBack(c, m, rate);
    }
    RoundHalfUpNearest(m as real / rate, c);
  }

  /**
   The price stored with the audit, recomputed from the converted amount, is exactly
   the USD price the auditor was shown, for every unit count and every rate from one up.
   */
  lemma PriceRoundTrip(workUnits: Option<int>, currency: string, rate: Rate)
    requires Recognised(currency).Some? && 1.0 <= rate
    ensures var shown := ProvidedPriceUsd(SuggestedAmountCents(workUnits), "USD", rate);
            var converted := ConvertUsdCents(SuggestedAmountCents(workUnits), currency, rate);
            converted.Success? && ProvidedPriceUsd(converted.value, currency, rate) == shown
    ensures ProvidedPriceUsd(SuggestedAmountCents(workUnits), "USD", rate) == SuggestedAmountCents(workUnits)
  {
    hide ToRub, PriceFromUsd, PriceFromRub;
    var base := SuggestedAmountCents(workUnits);
    assert Upper("USD") == "USD";
    if base.Some? {
      CentsExact(base.value);
      RubRoundTrip(base.value, rate);
    }
  }

  predicate SurvivesRubles(c: int, rate: Rate) {
    PriceFromRub(ToRub(c, rate), rate) == c
  }

  /** One work unit at a rate of 1/1000: five dollars come back as ten. */
  lemma SmallRateCanDouble(rate: Rate)
    requires rate == 0.001
    ensures SuggestedAmountCents(Some(1)) == Some(500)
    ensures PriceFromRub(ToRub(500, rate), rate) == 1000
  {
    assert 500.0 * rate == 0.5;
    DivisionCommutes(1.0, rate);
    assert 1.0 / rate == 1000.0;
    RoundHalfUpNearest(1000.0, 1000);
  }

  /** The rounding error of an amount is below half the rate, so that dividing it away rounds back. */
  predicate ErrorBelowHalfRate(error: real, rate: Rate) {
    -1.0 <= 2.0 * error / rate < 1.0
  }

  /** What rounding to kopecks added to an amount. */
  function RoundingError(c: nat, rate: Rate): real {
    ToRub(c, rate) as real - c as real * rate
  }

  lemma ScaledBounds(c: nat, m: nat, rate: Rate)
    ensures (c as real <= m as real / rate + 0.5 < c as real + 1.0)
            <==> ErrorBelowHalfRate(m as real - c as real * rate, rate)
  {
    var d := m as real / rate - c as real;
    assert (m as real / rate) * rate == m as real;
    assert m as real - c as real * rate == d * rate;
    DivideProduct(d, rate);
  }

  lemma DivideProduct(d: real, rate: Rate)
    ensures 2.0 * (d * rate) / rate == 2.0 * d
  {
    assert 2.0 * (d * rate) == (2.0 * d) * rate;
  }

  /** At any rate an amount survives exactly when its rounding error is below half the rate. */
  lemma SurvivesIffErrorSmall(c: nat, rate: Rate)
    ensures SurvivesRubles(c, rate) <==> ErrorBelowHalfRate(RoundingError(c, rate), rate)
  {
    assert c as real * rate >= 0.0;
    var m: nat := ToRub(c, rate);
    DivisionCommutes(m as real, rate);
    assert m as real / rate >= 0.0;
    ScaledBounds(c, m, rate);
  }

  /**
   The stored price is the shown one exactly when there is no suggestion, the report is in
   dollars, or the rounding error of the suggested amount is below half the rate.
   */
  lemma PriceRoundTripIff(workUnits: Option<int>, currency: string, rate: Rate)
    requires Recognised(currency).Some?
    ensures var base := SuggestedAmountCents(workUnits);
            var converted := ConvertUsdCents(base, currency, rate);
            && converted.Success?
            && (ProvidedPriceUsd(converted.value, currency, rate) == ProvidedPriceUsd(base, "USD", rate) <==>
                  || base.None? || Recognised(currency) == Some(Usd)
                  || ErrorBelowHalfRate(RoundingError(base.value, rate), rate))
  {
    hide ToRub, PriceFromUsd, PriceFromRub, RoundingError;
    var base := SuggestedAmountCents(workUnits);
    assert Upper("USD") == "USD";
    if base.Some? {
      CentsExact(base.value);
      SurvivesIffErrorSmall(base.value, rate);
    }
  }

  /** A unit price that is a whole number of kopecks survives for every unit count, at rates above and below one. */
  lemma WholeUnitPriceSurvives(units: nat, kopecks: int, rate: Rate)
    requires USD_CENTS_PER_WORK_UNIT as real * rate == kopecks as real
    ensures SurvivesRubles(units * USD_CENTS_PER_WORK_UNIT, rate)
  {
    var c := units * USD_CENTS_PER_WORK_UNIT;
    assert c as real * rate == units as real * kopecks as real == (units * kopecks) as real;
    assert ToRub(c, rate) == units * kopecks by {
      RoundHalfUpNearest(c as real * rate, units * kopecks);
    }
    assert RoundingError(c, rate) == 0.0;
    SurvivesIffErrorSmall(c, rate);
  }

  lemma {:induction false} SpreadOut(n: nat, rate: Rate)
    requires forall c :: SurvivesRubles(c, rate)
    ensures ToRub(n, rate) >= n
  {
    hide ToRub, PriceFromRub;
    if n == 0 {
      ZeroConverts(rate);
    } else {
      SpreadOut(n - 1, rate);
      ToRubMonotone(n - 1, n, rate);
      assert SurvivesRubles(n - 1, rate) && SurvivesRubles(n, rate);
    }
  }

  lemma ZeroConverts(rate: Rate)
    ensures ToRub(0, rate) == 0
  {
    assert 0.0 * rate == 0.0;
  }

  lemma ConvertsBelow(n: nat, rate: Rate)
    requires n as real * (1.0 - rate) > 0.5
    ensures ToRub(n, rate) < n
  {
    assert n as real * rate == n as real - n as real * (1.0 - rate);
    RoundHalfUpNearest(n as real * rate, 0);
  }

  /** Every amount survives the trip through rubles exactly when the rate is at least one. */
  lemma AllSurviveIffRateAtLeastOne(rate: Rate)
    ensures (forall c :: SurvivesRubles(c, rate)) <==> 1.0 <= rate
  {
    hide ToRub, PriceFromRub;
    if 1.0 <= rate {
      forall c
        ensures SurvivesRubles(c, rate)
      {
        RubRoundTrip(c, rate);
      }
    } else if forall c :: SurvivesRubles(c, rate) {
      var gap := 1.0 - rate;
      var n: nat := (1.0 / gap).Floor + 1;
      assert (1.0 / gap) * gap == 1.0;
      ScaleMonotone(1.0 / gap, n as real, gap);
      SpreadOut(n, rate);
      ConvertsBelow(n, rate);
    }
  }
}

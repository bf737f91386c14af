/**
 * The energy estimator shared by the dashboard and the forecast cards: the
 * cloud-cover de-rating factor with its floor, the reading of the capacity
 * text as a number (JavaScript's Number(kw) and isNaN), and the kWh estimate
 * rounded to one decimal.
 */
module Energy {
  import opened Wrappers
  import opened Numeric
  import opened WeatherService

  /** The floor both call sites pass: cloud never cuts output below 15%. */
  const MIN_CLOUD_FACTOR: real := 0.15

  /** getCloudCoverFactor: a linear reduction with cloud cover, never below minFactor. */
  function CloudCoverFactor(cloudCover: real, minFactor: real := MIN_CLOUD_FACTOR): (f: real)
    ensures f >= minFactor
    ensures f >= 1.0 - cloudCover / 100.0
    ensures f == 1.0 - cloudCover / 100.0 || f == minFactor
  {
    Max(1.0 - cloudCover / 100.0, minFactor)
  }

  /** For a percentage and a floor in [0, 1] the factor lies in [floor, 1]. */
  lemma CloudCoverFactorRange(cloudCover: real, minFactor: real)
    requires 0.0 <= cloudCover <= 100.0
    requires 0.0 <= minFactor <= 1.0
    ensures minFactor <= CloudCoverFactor(cloudCover, minFactor) <= 1.0
  {
  }

  lemma CloudCoverFactorAntitone(cc1: real, cc2: real, minFactor: real)
    requires cc1 <= cc2
    ensures CloudCoverFactor(cc2, minFactor) <= CloudCoverFactor(cc1, minFactor)
  {
  }

  lemma CloudCoverFactorExamples()
    ensures CloudCoverFactor(100.0) == 0.15
    ensures CloudCoverFactor(0.0) == 1.0
    ensures CloudCoverFactor(50.0) == 0.5
  {
  }

  predicate IsDigit(c: char) {
    '0' <= c <= '9'
  }

  predicate AllDigits(s: string) {
    forall i :: 0 <= i < |s| ==> IsDigit(s[i])
  }

  /** The position of the first '.', if any. */
  function IndexOfDot(s: string): (r: Option<nat>)
    ensures r.None? ==> forall i :: 0 <= i < |s| ==> s[i] != '.'
    ensures r.Some? ==> r.value < |s| && s[r.value] == '.'
    ensures r.Some? ==> forall i :: 0 <= i < r.value ==> s[i] != '.'
  {
    if |s| == 0 then None
    else if s[0] == '.' then Some(0)
    else match IndexOfDot(s[1..])
      case None => None
      case Some(k) => Some(k + 1)
  }

  /** Every character is a digit or a '.'. */
  predicate DigitsOrDots(s: string) {
    forall i :: 0 <= i < |s| ==> IsDigit(s[i]) || s[i] == '.'
  }

  /** No '.' follows another '.'. */
  predicate AtMostOneDot(s: string) {
    forall i, j :: 0 <= i < j < |s| && s[i] == '.' ==> s[j] != '.'
  }

  /**
   * The capacity field's filter /^\d*\.?\d*$/: digits, at most one '.', then
   * digits. The empty string and a lone "." both pass.
   */
  predicate IsCapacityText(s: string) {
    match IndexOfDot(s)
    case None => AllDigits(s)
    case Some(k) => AllDigits(s[..k]) && AllDigits(s[k + 1..])
  }

  /** The filter admits exactly the strings of digits and '.' with at most one '.'. */
  lemma CapacityTextIff(s: string)
    ensures IsCapacityText(s) <==> DigitsOrDots(s) && AtMostOneDot(s)
  {
    match IndexOfDot(s)
    case None =>
    case Some(k) =>
      SplitDigitsChars(s, k);
      CharsSplitDigits(s, k);
  }

  /** Digits on both sides of the first '.' make a string of digits with one '.'. */
  lemma SplitDigitsChars(s: string, k: nat)
    requires IndexOfDot(s) == Some(k)
    ensures AllDigits(s[..k]) && AllDigits(s[k + 1..]) ==> DigitsOrDots(s) && AtMostOneDot(s)
  {
    if !(AllDigits(s[..k]) && AllDigits(s[k + 1..])) {
      return;
    }
    var whole, fraction := s[..k], s[k + 1..];
    forall i | 0 <= i < |s| ensures IsDigit(s[i]) || s[i] == '.' {
      if i < k {
        assert s[i] == whole[i];
      } else if i > k {
        assert s[i] == fraction[i - k - 1];
      }
    }
    forall j | k < j < |s| ensures IsDigit(s[j]) {
      assert s[j] == fraction[j - k - 1];
    }
    assert !IsDigit('.');
  }

  /** A string of digits with one '.' has digits on both sides of it. */
  lemma CharsSplitDigits(s: string, k: nat)
    requires IndexOfDot(s) == Some(k)
    ensures DigitsOrDots(s) && AtMostOneDot(s) ==> AllDigits(s[..k]) && AllDigits(s[k + 1..])
  {
    if !(DigitsOrDots(s) && AtMostOneDot(s)) {
      return;
    }
    var whole, fraction := s[..k], s[k + 1..];
    forall i | 0 <= i < |whole| ensures IsDigit(whole[i]) {
      assert whole[i] == s[i];
    }
    forall i | 0 <= i < |fraction| ensures IsDigit(fraction[i]) {
      assert fraction[i] == s[k + 1 + i];
    }
  }

  function Pow10(n: nat): (p: nat)
    ensures p >= 1
  {
    if n == 0 then 1 else 10 * Pow10(n - 1)
  }

  /** The value of a string of decimal digits, most significant first. */
  function DigitsValue(s: string): (v: nat)
    requires AllDigits(s)
    ensures v < Pow10(|s|)
  {
    if |s| == 0 then 0
    else DigitsValue(s[..|s| - 1]) * 10 + (s[|s| - 1] as int - '0' as int)
  }

  lemma AllDigitsConcat(a: string, b: string)
    requires AllDigits(a) && AllDigits(b)
    ensures AllDigits(a + b)
  {
    forall i | 0 <= i < |a + b| ensures IsDigit((a + b)[i]) {
      if i < |a| {
        assert (a + b)[i] == a[i];
      } else {
        assert (a + b)[i] == b[i - |a|];
      }
    }
  }

  lemma ShiftDigit(x: int, p: int, y: int, d: int)
    ensures (x * p + y) * 10 + d == x * (p * 10) + (y * 10 + d)
  {
  }

  /** Digits written after digits: the first string's value shifted by the second's length. */
  lemma {:induction false} DigitsValueConcat(a: string, b: string)
    requires AllDigits(a) && AllDigits(b)
    ensures AllDigits(a + b)
    ensures DigitsValue(a + b) == DigitsValue(a) * Pow10(|b|) + DigitsValue(b)
    decreases |b|
  {
    AllDigitsConcat(a, b);
    if |b| == 0 {
      assert a + b == a;
    } else {
      var init := b[..|b| - 1];
      assert AllDigits(init) by {
        forall i | 0 <= i < |init| ensures IsDigit(init[i]) {
          assert init[i] == b[i];
        }
      }
      DigitsValueConcat(a, init);
      assert (a + b)[..|a + b| - 1] == a + init;
      assert (a + b)[|a + b| - 1] == b[|b| - 1];
      var d := b[|b| - 1] as int - '0' as int;
      assert DigitsValue(a + b) == DigitsValue(a + init) * 10 + d;
      assert DigitsValue(b) == DigitsValue(init) * 10 + d;
      assert Pow10(|b|) == Pow10(|init|) * 10;
      ShiftDigit(DigitsValue(a), Pow10(|init|), DigitsValue(init), d);
    }
  }

  /** The number written `w.f` when f has as many digits as p has zeros: w + f / p. */
  function Decimal(w: nat, f: nat, p: nat): (x: real)
    requires p > 0
    ensures x >= 0.0
  {
    w as real + f as real / p as real
  }

  /** w.f is the digits written together, divided by p. */
  lemma ScaleDown(w: nat, f: nat, p: nat, n: int)
    requires p > 0 && n == w * p + f
    ensures Decimal(w, f, p) == n as real / p as real
  {
    var x, y, q := w as real, f as real, p as real;
    assert (x + y / q) * q == x * q + y;
    assert (w * p) as real == x * q;
  }

  /** whole.fraction, scaled by 10^|fraction|, is the digits of both written together. */
  lemma DecimalValue(whole: string, fraction: string)
    requires AllDigits(whole) && AllDigits(fraction)
    ensures AllDigits(whole + fraction)
    ensures Decimal(DigitsValue(whole), DigitsValue(fraction), Pow10(|fraction|))
      == DigitsValue(whole + fraction) as real / Pow10(|fraction|) as real
  {
    DigitsValueConcat(whole, fraction);
    ScaleDown(DigitsValue(whole), DigitsValue(fraction), Pow10(|fraction|), DigitsValue(whole + fraction));
  }

  /** Some character of s is a digit. */
  predicate HasDigit(s: string) {
    exists i :: 0 <= i < |s| && IsDigit(s[i])
  }

  /** s without its first '.': the digits that make up the number. */
  function Unpointed(s: string): string {
    match IndexOfDot(s)
    case None => s
    case Some(k) => s[..k] + s[k + 1..]
  }

  /** How many characters follow the first '.'; 0 when there is none. */
  function FractionDigits(s: string): nat {
    match IndexOfDot(s)
    case None => 0
    case Some(k) => |s| - k - 1
  }

  /** Split at the first '.', digits on both sides and at least one digit in all. */
  predicate SplitsAsNumber(s: string) {
    match IndexOfDot(s)
    case None => |s| > 0 && AllDigits(s)
    case Some(k) => AllDigits(s[..k]) && AllDigits(s[k + 1..]) && |s| > 1
  }

  /** The texts that split as a number are those the filter admits that hold a digit. */
  lemma SplitsAsNumberIff(s: string)
    ensures SplitsAsNumber(s) <==> IsCapacityText(s) && HasDigit(s)
  {
    match IndexOfDot(s)
    case None =>
      if |s| > 0 && AllDigits(s) {
        assert IsDigit(s[0]);
      }
    case Some(k) =>
      var whole, fraction := s[..k], s[k + 1..];
      if AllDigits(whole) && AllDigits(fraction) && |s| > 1 {
        if k > 0 {
          assert s[0] == whole[0];
        } else {
          assert s[1] == fraction[0];
        }
      }
      if IsCapacityText(s) && HasDigit(s) {
        var i :| 0 <= i < |s| && IsDigit(s[i]);
        assert !IsDigit('.');
        assert i != k;
      }
  }

  /**
   * Number(kw) on the strings the capacity filter admits: "12", "12.", ".5",
   * "1.25" are numbers; "" and "." are not (the empty string is turned away
   * by the caller's truthiness test, "." is NaN). A number is its digits
   * read without the '.', divided by ten for each digit after the '.'.
   */
  function ParseCapacity(s: string): (r: Option<real>)
    ensures r.Some? <==> IsCapacityText(s) && HasDigit(s)
    ensures r.Some? ==> r.value >= 0.0
    ensures r.Some? ==>
      && AllDigits(Unpointed(s))
      && r.value == DigitsValue(Unpointed(s)) as real / Pow10(FractionDigits(s)) as real
  {
    SplitsAsNumberIff(s);
    if !SplitsAsNumber(s) then None
    else match IndexOfDot(s)
      case None => Some(DigitsValue(s) as real)
      case Some(k) =>
        var whole, fraction := s[..k], s[k + 1..];
        DecimalValue(whole, fraction);
        assert |s| - k - 1 == |fraction|;
        Some(Decimal(DigitsValue(whole), DigitsValue(fraction), Pow10(|fraction|)))
  }

  lemma ParseCapacityExamples()
    ensures ParseCapacity("5") == Some(5.0)
    ensures ParseCapacity(".") == None && IsCapacityText(".")
    ensures ParseCapacity("") == None && IsCapacityText("")
    ensures !IsCapacityText("1.2.3") && !IsCapacityText("5kW")
  {
    assert IndexOfDot("5") == None;
    assert IndexOfDot(".") == Some(0);
    assert IndexOfDot("1.2.3") == Some(1);
    assert "1.2.3"[2..][1] == '.';
    assert !IsDigit("5kW"[1]);
  }

  /**
   * A text that splits as a number reads as the value of its digits without
   * the '.', over ten for each digit after it.
   */
  lemma ParseReads(s: string, digits: string, n: nat, x: real)
    requires SplitsAsNumber(s)
    requires digits == Unpointed(s) && AllDigits(digits) && DigitsValue(digits) == n
    requires x == n as real / Pow10(FractionDigits(s)) as real
    ensures ParseCapacity(s) == Some(x)
  {
    SplitsAsNumberIff(s);
  }

  /** Decimal texts read as the numbers they spell. */
  lemma ParseCapacityDecimal()
    ensures ParseCapacity("2.5") == Some(2.5)
  {
    var s := "2.5";
    assert IndexOfDot(s) == Some(1);
    assert s[..1] == "2" && s[2..] == "5" && "2" + "5" == "25";
    assert Unpointed(s) == "25" && FractionDigits(s) == 1;
    assert SplitsAsNumber(s);
    assert DigitsValue("25") == 25 && Pow10(1) == 10;
    ParseReads(s, "25", 25, 2.5);
  }

  lemma ParseCapacityLongDecimal()
    ensures ParseCapacity("12.75") == Some(12.75)
  {
    var s := "12.75";
    assert IndexOfDot(s) == Some(2);
    assert s[..2] == "12" && s[3..] == "75" && "12" + "75" == "1275";
    assert Unpointed(s) == "1275" && FractionDigits(s) == 2;
    assert SplitsAsNumber(s);
    assert DigitsValue("1275") == 1275 by {
      assert "1275"[..3] == "127" && "127"[..2] == "12" && "12"[..1] == "1";
    }
    assert Pow10(2) == 100;
    ParseReads(s, "1275", 1275, 12.75);
  }

  /** An empty whole part reads as 0: ".f" is f over ten for each of its digits. */
  lemma ParseCapacityNoWhole(f: string)
    requires |f| > 0 && AllDigits(f)
    ensures ParseCapacity("." + f) == Some(DigitsValue(f) as real / Pow10(|f|) as real)
  {
    var s := "." + f;
    assert IndexOfDot(s) == Some(0);
    assert s[..0] == "" && s[1..] == f && s[..0] + s[1..] == f;
    assert Unpointed(s) == f && FractionDigits(s) == |f|;
    assert SplitsAsNumber(s);
    ParseReads(s, f, DigitsValue(f), DigitsValue(f) as real / Pow10(|f|) as real);
  }

  /** The first '.' of a text is the one that only digits precede. */
  lemma IndexOfDotAfterDigits(w: string, rest: string)
    requires AllDigits(w) && |rest| > 0 && rest[0] == '.'
    ensures IndexOfDot(w + rest) == Some(|w|)
  {
    var s := w + rest;
    assert s[|w|] == '.';
    forall i | 0 <= i < |w| ensures s[i] != '.' {
      assert s[i] == w[i];
    }
  }

  lemma DivideByOne(x: real, one: real)
    requires one == 1.0
    ensures x / one == x
  {
  }

  /** An empty fraction reads as 0: "w." is the whole number w. */
  lemma ParseCapacityNoFraction(w: string)
    requires |w| > 0 && AllDigits(w)
    ensures ParseCapacity(w + ".") == Some(DigitsValue(w) as real)
  {
    var s := w + ".";
    IndexOfDotAfterDigits(w, ".");
    assert s[..|w|] == w && s[|w| + 1..] == "" && s[..|w|] + s[|w| + 1..] == w;
    assert Unpointed(s) == w && FractionDigits(s) == 0;
    assert SplitsAsNumber(s);
    var n := DigitsValue(w);
    DivideByOne(n as real, Pow10(FractionDigits(s)) as real);
    ParseReads(s, w, n, n as real);
  }

  /** Leading and trailing zeros do not change the number. */
  lemma ParseCapacityZeros()
    ensures ParseCapacity("07.50") == Some(7.5)
  {
    var s := "07.50";
    assert IndexOfDot(s) == Some(2);
    assert s[..2] == "07" && s[3..] == "50" && "07" + "50" == "0750";
    assert Unpointed(s) == "0750" && FractionDigits(s) == 2;
    assert SplitsAsNumber(s);
    assert DigitsValue("0750") == 750 by {
      assert "0750"[..3] == "075" && "075"[..2] == "07" && "07"[..1] == "0";
    }
    assert Pow10(2) == 100;
    ParseReads(s, "0750", 750, 7.5);
  }

  /** Math.round(kw * sunshineHours * cloudFactor * 10) / 10. */
  function EstimateKwh(capacityKw: real, sunshineHours: real, cloudFactor: real): (kwh: real)
    ensures kwh - 0.05 <= capacityKw * sunshineHours * cloudFactor < kwh + 0.05
    ensures (kwh * 10.0).Floor as real == kwh * 10.0
  {
    RoundTenth(capacityKw * sunshineHours * cloudFactor)
  }

  /** The estimate for one day with the floored cloud factor. */
  function DayEstimate(capacityKw: real, day: WeatherDay): (kwh: real)
    ensures var exact := capacityKw * day.sunshineHours * CloudCoverFactor(day.cloudCover, MIN_CLOUD_FACTOR);
      kwh - 0.05 <= exact < kwh + 0.05
    ensures (kwh * 10.0).Floor as real == kwh * 10.0
  {
    EstimateKwh(capacityKw, day.sunshineHours, CloudCoverFactor(day.cloudCover, MIN_CLOUD_FACTOR))
  }

  lemma DayEstimateExamples()
    ensures DayEstimate(5.0, WeatherDay("", 20.0, 0.0, 10.0)) == 50.0
    ensures DayEstimate(5.0, WeatherDay("", 20.0, 100.0, 10.0)) == 7.5
  {
    RoundOfInteger(500);
    RoundOfInteger(75);
  }

  lemma MulMonotone(a: real, b: real, c: real)
    requires a <= b && c >= 0.0
    ensures a * c <= b * c
  {
  }

  /** A product of three non-negative factors grows with each factor. */
  lemma ProductMonotone(a1: real, a2: real, b1: real, b2: real, c1: real, c2: real)
    requires 0.0 <= a1 <= a2 && 0.0 <= b1 <= b2 && 0.0 <= c1 <= c2
    ensures a1 * b1 * c1 <= a2 * b2 * c2
  {
    MulMonotone(a1, a2, b1);
    assert b1 * a2 == a2 * b1 && b2 * a2 == a2 * b2;
    MulMonotone(b1, b2, a2);
    var p1, p2 := a1 * b1, a2 * b2;
    assert 0.0 <= p1 <= p2;
    MulMonotone(p1, p2, c1);
    assert c1 * p2 == p2 * c1 && c2 * p2 == p2 * c2;
    MulMonotone(c1, c2, p2);
  }

  lemma EstimateKwhMonotone(kw1: real, kw2: real, s1: real, s2: real, f1: real, f2: real)
    requires 0.0 <= kw1 <= kw2 && 0.0 <= s1 <= s2 && 0.0 <= f1 <= f2
    ensures EstimateKwh(kw1, s1, f1) <= EstimateKwh(kw2, s2, f2)
  {
    ProductMonotone(kw1, kw2, s1, s2, f1, f2);
    RoundTenthMonotone(kw1 * s1 * f1, kw2 * s2 * f2);
  }

  /** More capacity, more sunshine or less cloud never lowers the estimate. */
  lemma DayEstimateMonotone(kw1: real, kw2: real, d1: WeatherDay, d2: WeatherDay)
    requires 0.0 <= kw1 <= kw2
    requires 0.0 <= d1.sunshineHours <= d2.sunshineHours
    requires d2.cloudCover <= d1.cloudCover
    ensures DayEstimate(kw1, d1) <= DayEstimate(kw2, d2)
  {
    var f1 := CloudCoverFactor(d1.cloudCover, MIN_CLOUD_FACTOR);
    var f2 := CloudCoverFactor(d2.cloudCover, MIN_CLOUD_FACTOR);
    CloudCoverFactorAntitone(d2.cloudCover, d1.cloudCover, MIN_CLOUD_FACTOR);
    EstimateKwhMonotone(kw1, kw2, d1.sunshineHours, d2.sunshineHours, f1, f2);
  }
}

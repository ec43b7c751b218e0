/** The reading of ChangeBeforeUpdates, an xsd:duration (core/last_states.go).

    XML Schema Part 2, section 3.2.6, writes a duration PnYnMnDTnHnMnS, with an optional
    minus sign in front and a decimal fraction of the seconds. */
module Durations {
  import opened Common
  import opened Text

  const MAX_INT64: int := 0x7FFF_FFFF_FFFF_FFFF

  /** Two's complement: time.Duration is a signed 64-bit integer. */
  function Wrap64(n: int): int {
    (n + 0x8000_0000_0000_0000) % 0x1_0000_0000_0000_0000 - 0x8000_0000_0000_0000
  }

  predicate IsDigit(c: char) { '0' <= c <= '9' }

  predicate AllDigits(s: string) {
    forall c :: c in s ==> IsDigit(c)
  }

  function Decimal(digits: string): nat
    requires AllDigits(digits)
  {
    if digits == "" then 0
    else
      assert digits[|digits| - 1] in digits;
      10 * Decimal(digits[..|digits| - 1]) + (digits[|digits| - 1] as int - '0' as int)
  }

  /** The longest run of digits in front. */
  function Digits(s: string): (run: string)
    ensures run <= s && AllDigits(run)
  {
    if s != "" && IsDigit(s[0]) then [s[0]] + Digits(s[1..]) else ""
  }

  /** One optional group: digits and their unit, or nothing. */
  function Part(s: string, mark: char): (string, string) {
    var run := Digits(s);
    if run != "" && |run| < |s| && s[|run|] == mark then (run, s[|run| + 1..]) else ("", s)
  }

  /** The group of the seconds, whose fraction has one to three digits. */
  function SecondsPart(s: string): (string, string) {
    var run := Digits(s);
    if run == "" || |run| == |s| then ("", "")
    else if s[|run|] == 'S' then (run, "")
    else if s[|run|] != '.' && s[|run|] != ',' then ("", "")
    else
      var fraction := Part(s[|run| + 1..], 'S').0;
      if 1 <= |fraction| <= 3 then (run, fraction) else ("", "")
  }

  lemma SecondsPartIsDigits(s: string)
    ensures AllDigits(SecondsPart(s).0) && AllDigits(SecondsPart(s).1) && |SecondsPart(s).1| <= 3
  {
  }

  /** The groups of the regular expression, in order. */
  datatype Matches = Matches(years: string, months: string, days: string, hours: string, minutes: string,
                             seconds: string, fraction: string)

  ghost predicate DigitMatches(m: Matches) {
    && AllDigits(m.years) && AllDigits(m.months) && AllDigits(m.days) && AllDigits(m.hours)
    && AllDigits(m.minutes) && AllDigits(m.seconds) && AllDigits(m.fraction) && |m.fraction| <= 3
  }

  /** What the expression matches after its letter P: the leftmost P always starts a match. */
  function MatchGroups(s: string): (m: Matches)
    ensures DigitMatches(m)
  {
    var (years, s1) := Part(s, 'Y');
    var (months, s2) := Part(s1, 'M');
    var (days, s3) := Part(s2, 'D');
    if s3 == "" || s3[0] != 'T' then Matches(years, months, days, "", "", "", "")
    else
      var (hours, s4) := Part(s3[1..], 'H');
      var (minutes, s5) := Part(s4, 'M');
      SecondsPartIsDigits(s5);
      var (seconds, fraction) := SecondsPart(s5);
      Matches(years, months, days, hours, minutes, seconds, fraction)
  }

  /** The text after the leftmost P. */
  function AfterP(s: string): Option<string> {
    if s == "" then None else if s[0] == 'P' then Some(s[1..]) else AfterP(s[1..])
  }

  /** parseDuration: no digits, or a number that does not fit, count for nothing. */
  function Number(digits: string): nat
    requires AllDigits(digits)
  {
    if Decimal(digits) <= MAX_INT64 then Decimal(digits) else 0
  }

  function Power(a: int, b: nat): int {
    if b == 0 then 1 else a * Power(a, b - 1)
  }

  lemma {:induction false} PowerSquared(a: int, b: nat)
    ensures Power(a * a, b) == Power(a, 2 * b)
  {
    if b > 0 {
      PowerSquared(a, b - 1);
      assert Power(a, 2 * b) == a * Power(a, 2 * b - 1) && Power(a, 2 * b - 1) == a * Power(a, 2 * (b - 1));
      assert a * a * Power(a, 2 * (b - 1)) == a * (a * Power(a, 2 * (b - 1)));
    }
  }

  /** durationPow: square and multiply. */
  method DurationPow(a: int, b: int) returns (p: int)
    ensures p == Power(a, if b > 0 then b else 0)
  {
    var base, exponent := a, if b > 0 then b else 0;
    p := 1;
    while exponent > 0
      invariant exponent >= 0
      invariant p * Power(base, exponent) == Power(a, if b > 0 then b else 0)
      decreases exponent
    {
      PowerSquared(base, exponent / 2);
      if exponent % 2 != 0 {
        assert Power(base, exponent) == base * Power(base, exponent - 1) && exponent - 1 == 2 * (exponent / 2);
        assert p * (base * Power(base, exponent - 1)) == (p * base) * Power(base, exponent - 1);
        p := p * base;
      }
      exponent := exponent / 2;
      base := base * base;
    }
  }

  /** Nanoseconds; a year counts 365 days and a month 30. */
  function Nanoseconds(years: int, months: int, days: int, hours: int, minutes: int, seconds: int): int {
    (years * 31_536_000 + months * 2_592_000 + days * 86_400 + hours * 3_600 + minutes * 60 + seconds) * 1_000_000_000
  }

  function Whole(m: Matches): int
    requires DigitMatches(m)
  {
    Nanoseconds(Number(m.years), Number(m.months), Number(m.days), Number(m.hours), Number(m.minutes),
                Number(m.seconds))
  }

  /** The sum, before it is cut to 64 bits. */
  function Total(m: Matches): int
    requires DigitMatches(m)
  {
    Whole(m) + FractionTotal(m.fraction)
  }

  /** One to three decimals of a second. */
  function FractionTotal(fraction: string): nat
    requires AllDigits(fraction) && |fraction| <= 3
  {
    if |fraction| == 3 then Number(fraction) * 1_000_000
    else if |fraction| == 2 then Number(fraction) * 10_000_000
    else if |fraction| == 1 then Number(fraction) * 100_000_000
    else 0
  }

  /** The fraction is scaled to milliseconds by a power of ten. */
  method FractionDuration(fraction: string) returns (rest: int)
    requires AllDigits(fraction) && |fraction| <= 3
    ensures rest == FractionTotal(fraction)
  {
    var scale := DurationPow(10, 3 - |fraction|);
    PowersOfTen();
    rest := Number(fraction) * scale * 1_000_000;
    assert |fraction| == 0 ==> fraction == "" && Number(fraction) == 0;
  }

  lemma PowersOfTen()
    ensures Power(10, 0) == 1 && Power(10, 1) == 10 && Power(10, 2) == 100 && Power(10, 3) == 1000
  {
  }

  function DurationOf(m: Matches): int
    requires DigitMatches(m)
  {
    Wrap64(Total(m))
  }

  function OptionDuration(option: string): int {
    match AfterP(TrimSpace(option))
    case None => 0
    case Some(s) => DurationOf(MatchGroups(s))
  }

  method GetOptionDuration(option: string) returns (duration: int)
    ensures duration == OptionDuration(option)
  {
    var after := AfterP(TrimSpace(option));
    if after.None? {
      return 0;
    }
    var m := MatchGroups(after.value);
    duration := Sum(m);
  }

  method Sum(m: Matches) returns (duration: int)
    requires DigitMatches(m)
    ensures duration == DurationOf(m)
  {
    var rest := FractionDuration(m.fraction);
    duration := Wrap64(Whole(m) + rest);
  }

  // ---------------------------------------------------------------- agreement with xsd:duration

  /** A duration as it is written; absent fields are None, `fraction` is empty without a decimal point. */
  datatype Xsd = Xsd(negative: bool, years: Option<string>, months: Option<string>, days: Option<string>,
                     hours: Option<string>, minutes: Option<string>, seconds: Option<string>, fraction: string)

  ghost predicate Numeral(o: Option<string>) {
    o.Some? ==> o.value != "" && AllDigits(o.value)
  }

  ghost predicate Written(x: Xsd) {
    && Numeral(x.years) && Numeral(x.months) && Numeral(x.days) && Numeral(x.hours) && Numeral(x.minutes)
        && Numeral(x.seconds)
    && AllDigits(x.fraction) && (x.seconds.None? ==> x.fraction == "")
  }

  function RenderPart(o: Option<string>, mark: char): string {
    if o.Some? then o.value + [mark] else ""
  }

  function RenderSeconds(o: Option<string>, fraction: string): string {
    if o.None? then "" else o.value + (if fraction == "" then "" else "." + fraction) + "S"
  }

  function RenderTime(x: Xsd): string {
    if x.hours.None? && x.minutes.None? && x.seconds.None? then ""
    else "T" + (RenderPart(x.hours, 'H') + (RenderPart(x.minutes, 'M') + RenderSeconds(x.seconds, x.fraction)))
  }

  function RenderFields(x: Xsd): string {
    RenderPart(x.years, 'Y') + (RenderPart(x.months, 'M') + (RenderPart(x.days, 'D') + RenderTime(x)))
  }

  function Render(x: Xsd): string {
    (if x.negative then "-P" else "P") + RenderFields(x)
  }

  function DigitsIn(o: Option<string>): string {
    if o.Some? then o.value else ""
  }

  lemma {:induction false} DigitsOfRun(run: string, rest: string)
    requires AllDigits(run) && (rest != "" ==> !IsDigit(rest[0]))
    ensures Digits(run + rest) == run
  {
    if run == "" {
      assert run + rest == rest;
    } else {
      assert run[0] in run;
      assert (run + rest)[1..] == run[1..] + rest;
      DigitsOfRun(run[1..], rest);
    }
  }

  lemma PartOfRun(run: string, c: char, rest: string, mark: char)
    requires AllDigits(run) && run != "" && !IsDigit(c)
    ensures Part(run + [c] + rest, mark) == if c == mark then (run, rest) else ("", run + [c] + rest)
  {
    DigitsOfRun(run, [c] + rest);
    assert run + [c] + rest == run + ([c] + rest);
  }

  /** A rendered field is read back, and the rest is left for the next group. */
  lemma PartOfRendered(o: Option<string>, mark: char, rest: string)
    requires Numeral(o) && !IsDigit(mark) && Part(rest, mark) == ("", rest)
    ensures Part(RenderPart(o, mark) + rest, mark) == (DigitsIn(o), rest)
  {
    if o.Some? {
      PartOfRun(o.value, mark, rest, mark);
    } else {
      assert RenderPart(o, mark) + rest == rest;
    }
  }

  /** A field with another unit is skipped. */
  lemma PartOfOther(o: Option<string>, other: char, mark: char, rest: string)
    requires Numeral(o) && !IsDigit(other) && other != mark && Part(rest, mark) == ("", rest)
    ensures Part(RenderPart(o, other) + rest, mark) == ("", RenderPart(o, other) + rest)
  {
    if o.Some? {
      PartOfRun(o.value, other, rest, mark);
    } else {
      assert RenderPart(o, other) + rest == rest;
    }
  }

  lemma PartOfSeconds(o: Option<string>, fraction: string, mark: char)
    requires Numeral(o) && AllDigits(fraction) && mark != 'S' && mark != '.'
    ensures Part(RenderSeconds(o, fraction), mark) == ("", RenderSeconds(o, fraction))
  {
    if o.Some? {
      if fraction == "" {
        PartOfRun(o.value, 'S', "", mark);
        assert RenderSeconds(o, fraction) == o.value + ['S'] + "";
      } else {
        PartOfRun(o.value, '.', fraction + "S", mark);
        assert RenderSeconds(o, fraction) == o.value + ['.'] + (fraction + "S");
      }
    }
  }

  /** More than three decimals make the whole group of the seconds fail. */
  lemma SecondsOfRendered(o: Option<string>, fraction: string)
    requires Numeral(o) && AllDigits(fraction) && (o.None? ==> fraction == "")
    ensures SecondsPart(RenderSeconds(o, fraction)) == if |fraction| <= 3 then (DigitsIn(o), fraction) else ("", "")
  {
    if o.Some? {
      var text := RenderSeconds(o, fraction);
      var tail := if fraction == "" then "S" else "." + fraction + "S";
      assert text == o.value + tail;
      DigitsOfRun(o.value, tail);
      assert Digits(text) == o.value && text[|o.value|] == tail[0];
      if fraction != "" {
        PartOfRun(fraction, 'S', "", 'S');
        assert text[|o.value| + 1..] == fraction + ['S'] + "";
      }
    }
  }

  lemma TimeIsNoPart(x: Xsd, mark: char)
    ensures Part(RenderTime(x), mark) == ("", RenderTime(x))
  {
  }

  function MatchedFields(x: Xsd): Matches {
    var short := |x.fraction| <= 3;
    Matches(DigitsIn(x.years), DigitsIn(x.months), DigitsIn(x.days), DigitsIn(x.hours), DigitsIn(x.minutes),
            if short then DigitsIn(x.seconds) else "", if short then x.fraction else "")
  }

  /** The groups matched in a written duration are its fields, but seconds with more than
      three decimals are lost. */
  lemma MatchOfRendered(x: Xsd)
    requires Written(x)
    ensures MatchGroups(RenderFields(x)) == MatchedFields(x)
  {
    var time := RenderTime(x);
    var days := RenderPart(x.days, 'D') + time;
    var months := RenderPart(x.months, 'M') + days;
    TimeIsNoPart(x, 'Y');
    TimeIsNoPart(x, 'M');
    TimeIsNoPart(x, 'D');
    PartOfOther(x.days, 'D', 'Y', time);
    PartOfOther(x.days, 'D', 'M', time);
    PartOfOther(x.months, 'M', 'Y', days);
    PartOfRendered(x.years, 'Y', months);
    PartOfRendered(x.months, 'M', days);
    PartOfRendered(x.days, 'D', time);
    if time != "" {
      var seconds := RenderSeconds(x.seconds, x.fraction);
      PartOfSeconds(x.seconds, x.fraction, 'H');
      PartOfSeconds(x.seconds, x.fraction, 'M');
      PartOfOther(x.minutes, 'M', 'H', seconds);
      PartOfRendered(x.hours, 'H', RenderPart(x.minutes, 'M') + seconds);
      PartOfRendered(x.minutes, 'M', seconds);
      SecondsOfRendered(x.seconds, x.fraction);
      assert time[1..] == RenderPart(x.hours, 'H') + (RenderPart(x.minutes, 'M') + seconds);
    }
  }

  /** Every sign, digit and letter of a written duration is in this range, and no space is. */
  predicate Glyph(c: char) {
    '-' <= c <= 'Y'
  }

  lemma RenderedIsWord(x: Xsd)
    requires Written(x)
    ensures forall c :: c in Render(x) ==> Glyph(c)
  {
    assert forall c :: c in RenderTime(x) ==> Glyph(c);
    assert forall c :: c in RenderFields(x) ==> Glyph(c);
  }

  /** The whole part of the value, in nanoseconds, without the seconds. */
  function WholeFields(x: Xsd): int
    requires Written(x)
  {
    InUnits(Decimal(DigitsIn(x.years)), Decimal(DigitsIn(x.months)), Decimal(DigitsIn(x.days)),
            Decimal(DigitsIn(x.hours)), Decimal(DigitsIn(x.minutes)))
  }

  /** 365 days to the year, 30 to the month, 24 hours to the day, 60 minutes to the hour. */
  function InUnits(years: nat, months: nat, days: nat, hours: nat, minutes: nat): nat {
    (((years * 365 + months * 30 + days) * 24 + hours) * 60 + minutes) * 60_000_000_000
  }

  lemma UnitsAddUp(years: nat, months: nat, days: nat, hours: nat, minutes: nat)
    ensures InUnits(years, months, days, hours, minutes) == Nanoseconds(years, months, days, hours, minutes, 0)
  {
  }

  lemma {:induction false} PowerPositive(n: nat)
    ensures Power(10, n) > 0
  {
    if n > 0 {
      PowerPositive(n - 1);
    }
  }

  /** The seconds with their decimals, in nanoseconds. */
  function SecondsValue(x: Xsd): real
    requires Written(x)
  {
    PowerPositive(|x.fraction|);
    (Decimal(DigitsIn(x.seconds)) * 1_000_000_000) as real
    + Decimal(x.fraction) as real * 1_000_000_000.0 / Power(10, |x.fraction|) as real
  }

  /** The value of a duration without its sign: years count 365 days and months 30. */
  function Magnitude(x: Xsd): real
    requires Written(x)
  {
    WholeFields(x) as real + SecondsValue(x)
  }

  function XsdValue(x: Xsd): real
    requires Written(x)
  {
    if x.negative then -Magnitude(x) else Magnitude(x)
  }

  lemma {:induction false} DecimalBound(digits: string)
    requires AllDigits(digits)
    ensures Decimal(digits) < Power(10, |digits|)
  {
    if digits != "" {
      assert digits[|digits| - 1] in digits;
      DecimalBound(digits[..|digits| - 1]);
    }
  }

  /** A count of milliseconds that does not fit becomes another number, and never its opposite. */
  lemma WrapOfCount(n: nat, millis: nat)
    requires n == millis * 1_000_000
    ensures Wrap64(n) == n <==> n <= MAX_INT64
    ensures Wrap64(n) <= MAX_INT64 && Wrap64(n) <= n
    ensures -Wrap64(n) >= n ==> n == 0
  {
  }

  lemma SmallFraction(fraction: string)
    requires AllDigits(fraction) && |fraction| <= 3
    ensures Number(fraction) == Decimal(fraction) && FractionTotal(fraction) < 1_000_000_000
  {
    DecimalBound(fraction);
    PowersOfTen();
  }

  lemma FractionValue(fraction: string)
    requires AllDigits(fraction) && |fraction| <= 3
    ensures Power(10, |fraction|) > 0
    ensures Decimal(fraction) as real * 1_000_000_000.0 / Power(10, |fraction|) as real ==
            FractionTotal(fraction) as real
  {
    SmallFraction(fraction);
    PowersOfTen();
  }

  lemma SecondsOfWritten(x: Xsd)
    requires Written(x) && |x.fraction| <= 3
    ensures SecondsValue(x) == (Decimal(DigitsIn(x.seconds)) * 1_000_000_000 + FractionTotal(x.fraction)) as real
  {
    FractionValue(x.fraction);
  }

  /** Numbers that do not fit in 64 bits count for nothing. */
  lemma NumberIsLess(digits: string)
    requires AllDigits(digits)
    ensures 0 <= Number(digits) <= Decimal(digits)
  {
  }

  /** What the groups add up to: never more than the value, and the value without lost
      decimals if this fits in 64 bits. */
  lemma TotalOfWritten(x: Xsd, m: Matches)
    requires Written(x) && m == MatchedFields(x)
    ensures DigitMatches(m) && 0 <= Total(m) && Total(m) as real <= Magnitude(x)
    ensures Magnitude(x) <= MAX_INT64 as real ==>
              Total(m) as real == WholeFields(x) as real + if |x.fraction| <= 3 then SecondsValue(x) else 0.0
  {
    WholeIsLess(x, m);
    if |x.fraction| <= 3 {
      ShortTotal(x, m);
    } else {
      LongTotal(x, m);
    }
  }

  lemma ShortTotal(x: Xsd, m: Matches)
    requires Written(x) && m == MatchedFields(x) && |x.fraction| <= 3
    requires 0 <= Whole(m) <= WholeFields(x) + Number(m.seconds) * 1_000_000_000
    requires WholeFields(x) <= MAX_INT64 ==> Whole(m) == WholeFields(x) + Number(m.seconds) * 1_000_000_000
    ensures Total(m) as real <= Magnitude(x)
    ensures Magnitude(x) <= MAX_INT64 as real ==> Total(m) as real == Magnitude(x)
  {
    var value := WholeFields(x) + Decimal(m.seconds) * 1_000_000_000 + FractionTotal(m.fraction);
    SecondsOfWritten(x);
    assert Magnitude(x) == value as real;
    NumberIsLess(m.seconds);
    NotNegative(x);
    assert Total(m) <= value;
    if value <= MAX_INT64 {
      assert Decimal(m.seconds) <= MAX_INT64;
      assert Total(m) == value;
    }
  }

  lemma LongTotal(x: Xsd, m: Matches)
    requires Written(x) && m == MatchedFields(x) && |x.fraction| > 3
    requires 0 <= Whole(m) <= WholeFields(x) + Number(m.seconds) * 1_000_000_000
    requires WholeFields(x) <= MAX_INT64 ==> Whole(m) == WholeFields(x) + Number(m.seconds) * 1_000_000_000
    ensures Total(m) as real <= Magnitude(x)
    ensures Magnitude(x) <= MAX_INT64 as real ==> Total(m) == WholeFields(x)
  {
    NotNegative(x);
    LostSeconds(x, m);
    LongSum(WholeFields(x), Whole(m), SecondsValue(x));
  }

  lemma LostSeconds(x: Xsd, m: Matches)
    requires Written(x) && m == MatchedFields(x) && |x.fraction| > 3
    ensures Number(m.seconds) == 0 && DigitMatches(m) && Total(m) == Whole(m)
  {
    assert Number("") == 0;
  }

  lemma LongSum(fields: int, whole: int, seconds: real)
    requires whole <= fields && (fields <= MAX_INT64 ==> whole == fields) && seconds >= 0.0
    ensures whole as real <= fields as real + seconds
    ensures fields as real + seconds <= MAX_INT64 as real ==> whole == fields
  {
  }

  lemma WholeIsLess(x: Xsd, m: Matches)
    requires Written(x) && m == MatchedFields(x)
    ensures 0 <= Whole(m) <= WholeFields(x) + Number(m.seconds) * 1_000_000_000
    ensures WholeFields(x) <= MAX_INT64 ==> Whole(m) == WholeFields(x) + Number(m.seconds) * 1_000_000_000
  {
    NumberIsLess(m.years);
    NumberIsLess(m.months);
    NumberIsLess(m.days);
    NumberIsLess(m.hours);
    NumberIsLess(m.minutes);
    UnitsAddUp(Decimal(DigitsIn(x.years)), Decimal(DigitsIn(x.months)), Decimal(DigitsIn(x.days)),
               Decimal(DigitsIn(x.hours)), Decimal(DigitsIn(x.minutes)));
  }

  /** The sum is a count of milliseconds. */
  lemma TotalInMillis(m: Matches) returns (millis: nat)
    requires DigitMatches(m)
    ensures Total(m) == millis * 1_000_000
  {
    var fraction := if |m.fraction| == 3 then Number(m.fraction) else if |m.fraction| == 2 then Number(m.fraction) * 10
                    else if |m.fraction| == 1 then Number(m.fraction) * 100 else 0;
    assert FractionTotal(m.fraction) == fraction * 1_000_000;
    millis := SecondsInMillis(Number(m.years), Number(m.months), Number(m.days), Number(m.hours), Number(m.minutes),
                              Number(m.seconds), fraction);
  }

  lemma SecondsInMillis(years: nat, months: nat, days: nat, hours: nat, minutes: nat, seconds: nat, fraction: nat)
    returns (millis: nat)
    ensures Nanoseconds(years, months, days, hours, minutes, seconds) + fraction * 1_000_000 == millis * 1_000_000
  {
    millis := (years * 31_536_000 + months * 2_592_000 + days * 86_400 + hours * 3_600 + minutes * 60 + seconds) * 1000
        + fraction;
  }

  /** What the code reads in any written duration: the sum of the numbers that fit, cut to 64
      bits; the sign is ignored, and seconds with more than three decimals are lost. */
  lemma DurationOfWritten(x: Xsd)
    requires Written(x)
    ensures OptionDuration(Render(x)) == Wrap64(Total(MatchedFields(x)))
    ensures Magnitude(x) <= MAX_INT64 as real ==>
              OptionDuration(Render(x)) as real == WholeFields(x) as real
                  + if |x.fraction| <= 3 then SecondsValue(x) else 0.0
  {
    TotalOfWritten(x, MatchedFields(x));
    ReadsRendered(x);
    var millis := TotalInMillis(MatchedFields(x));
    WrapOfCount(Total(MatchedFields(x)), millis);
  }

  lemma ReadsRendered(x: Xsd)
    requires Written(x) && DigitMatches(MatchedFields(x))
    ensures OptionDuration(Render(x)) == DurationOf(MatchedFields(x))
  {
    TextAfterP(x);
    MatchOfRendered(x);
  }

  lemma TextAfterP(x: Xsd)
    requires Written(x)
    ensures AfterP(TrimSpace(Render(x))) == Some(RenderFields(x))
  {
    RenderedIsWord(x);
    GlyphsAreTrimmed(Render(x));
    AfterSign(x.negative, RenderFields(x));
  }

  lemma GlyphsAreTrimmed(s: string)
    requires forall c :: c in s ==> Glyph(c)
    ensures TrimSpace(s) == s
  {
    assert forall c :: Glyph(c) ==> !IsSpace(c);
    TrimSpaceOfWord(s);
  }

  lemma AfterSign(negative: bool, fields: string)
    ensures AfterP((if negative then "-P" else "P") + fields) == Some(fields)
  {
    assert ("P" + fields)[1..] == fields;
    assert ("-P" + fields)[1..] == "P" + fields;
  }

  /** The code meets xsd:duration exactly on the durations that are not negative, whose seconds
      have at most three decimals, and that fit in 64 bits of nanoseconds (some 292 years),
      apart from those where the sign or the decimals that it drops mean nothing. */
  lemma MeetsXsdDuration(x: Xsd)
    requires Written(x)
    ensures OptionDuration(Render(x)) as real == XsdValue(x) <==>
            && (!x.negative || Magnitude(x) == 0.0)
            && (|x.fraction| <= 3 || SecondsValue(x) == 0.0)
            && Magnitude(x) <= MAX_INT64 as real
  {
    DurationOfWritten(x);
    ReadMeetsIff(x, OptionDuration(Render(x)));
  }

  lemma ReadMeetsIff(x: Xsd, read: int)
    requires Written(x) && DigitMatches(MatchedFields(x)) && read == Wrap64(Total(MatchedFields(x)))
    ensures read as real == XsdValue(x) <==>
            && (!x.negative || Magnitude(x) == 0.0)
            && (|x.fraction| <= 3 || SecondsValue(x) == 0.0)
            && Magnitude(x) <= MAX_INT64 as real
  {
    var whole, seconds, total, millis := PartsOfWritten(x);
    ReadIsValueIff(x.negative, |x.fraction|, total, millis, whole, seconds);
  }

  /** The value in two parts, and the total that the groups add up to. */
  lemma PartsOfWritten(x: Xsd) returns (whole: real, seconds: real, total: nat, millis: nat)
    requires Written(x)
    ensures DigitMatches(MatchedFields(x)) && total == Total(MatchedFields(x)) && total == millis * 1_000_000
    ensures whole >= 0.0 && seconds >= 0.0 && SecondsValue(x) == seconds && Magnitude(x) == whole + seconds
    ensures total as real <= whole + seconds
    ensures whole + seconds <= MAX_INT64 as real ==> total as real == whole + if |x.fraction| <= 3 then seconds else 0.0
  {
    NotNegative(x);
    TotalOfWritten(x, MatchedFields(x));
    whole, seconds, total := WholeFields(x) as real, SecondsValue(x), Total(MatchedFields(x));
    millis := TotalInMillis(MatchedFields(x));
  }

  /** The case analysis: a total that wraps is below the magnitude, and never its negation. */
  lemma ReadIsValueIff(negative: bool, decimals: nat, total: nat, millis: nat, whole: real, seconds: real)
    requires total == millis * 1_000_000 && whole >= 0.0 && seconds >= 0.0 && total as real <= whole + seconds
    requires whole + seconds <= MAX_INT64 as real ==> total as real == whole + if decimals <= 3 then seconds else 0.0
    ensures Wrap64(total) as real == (if negative then -(whole + seconds) else whole + seconds) <==>
            && (!negative || whole + seconds == 0.0)
            && (decimals <= 3 || seconds == 0.0)
            && whole + seconds <= MAX_INT64 as real
  {
    var read := Wrap64(total);
    WrapOfCount(total, millis);
    if negative && read as real == -(whole + seconds) {
      assert -read as real == whole + seconds;
      assert -read >= total;
    }
  }

  /** Three hundred years do not fit: the code reads a negative duration. */
  lemma LongDurationWraps()
    ensures Written(THREE_HUNDRED_YEARS) && XsdValue(THREE_HUNDRED_YEARS) > 0.0
            && OptionDuration(Render(THREE_HUNDRED_YEARS)) < 0
  {
    var x := THREE_HUNDRED_YEARS;
    DecimalOfThreeHundred();
    assert Decimal("") == 0;
    NotNegative(x);
    DurationOfWritten(x);
    assert Total(MatchedFields(x)) == 9_460_800_000_000_000_000;
  }

  const THREE_HUNDRED_YEARS := Xsd(false, Some("300"), None, None, None, None, None, "")

  lemma DecimalOfThreeHundred()
    ensures AllDigits("300") && Decimal("300") == 300
  {
    assert "300"[..2] == "30" && "30"[..1] == "3" && "3"[..0] == "";
    assert Decimal("3") == 3;
    assert Decimal("30") == 30;
  }

  lemma NotNegative(x: Xsd)
    requires Written(x)
    ensures WholeFields(x) >= 0 && SecondsValue(x) >= 0.0
  {
    PowerPositive(|x.fraction|);
  }
}

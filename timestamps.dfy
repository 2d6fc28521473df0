/**
 * ISO-8601 UTC timestamps as the service writes them,
 * `YYYY-MM-DDTHH:MM:SS[.fraction]Z`, read into calendar fields with the
 * fraction normalised to microseconds.
 */
module Timestamps {
  import opened Results
  import opened Decimal

  /** A timezone-aware UTC instant; every timestamp the service sends ends in `Z`. */
  datatype Timestamp = Timestamp(
    year: nat, month: nat, day: nat,
    hour: nat, minute: nat, second: nat,
    microsecond: nat)

  const MicrosPerSecond: nat := 1000000

  /**
   * A fraction of a second as its digits after the '.': the first six digits
   * are kept, further ones are dropped and fewer are padded with zeros.
   */
  function FractionMicros(frac: string): (us: nat)
    requires AllDigits(frac)
    ensures us < MicrosPerSecond
  {
    DecimalValue((frac + "000000")[..6])
  }

  /** `YYYY-MM-DDTHH:MM:SS`: digits and separators in their places. */
  predicate IsDateTime(d: string) {
    && |d| == 19
    && AllDigits(d[0..4]) && d[4] == '-' && AllDigits(d[5..7]) && d[7] == '-' && AllDigits(d[8..10])
    && d[10] == 'T'
    && AllDigits(d[11..13]) && d[13] == ':' && AllDigits(d[14..16]) && d[16] == ':' && AllDigits(d[17..19])
  }

  /** After the seconds: nothing, or a '.' and at least one digit. */
  predicate IsFraction(f: string) {
    f == [] || (|f| >= 2 && f[0] == '.' && AllDigits(f[1..]))
  }

  predicate IsTimestamp(s: string) {
    |s| >= 20 && s[|s| - 1] == 'Z' && IsDateTime(s[..19]) && IsFraction(s[19..|s| - 1])
  }

  /** The microseconds an accepted fraction part denotes. */
  function FractionPart(f: string): (us: nat)
    requires IsFraction(f)
    ensures us < MicrosPerSecond
  {
    if f == [] then 0 else FractionMicros(f[1..])
  }

  /** Reads a service timestamp; None when the text is not of that form. */
  function ParseTimestamp(s: string): (r: Option<Timestamp>)
    ensures r.Some? <==> IsTimestamp(s)
    ensures r.Some? ==> r.value.microsecond == FractionPart(s[19..|s| - 1])
    ensures r.Some? ==> var d := s[..19];
      && r.value.year == DecimalValue(d[0..4]) && r.value.month == DecimalValue(d[5..7])
      && r.value.day == DecimalValue(d[8..10]) && r.value.hour == DecimalValue(d[11..13])
      && r.value.minute == DecimalValue(d[14..16]) && r.value.second == DecimalValue(d[17..19])
    ensures r.Some? ==> r.value.year < 10000 && r.value.month < 100 && r.value.day < 100
    ensures r.Some? ==> r.value.hour < 100 && r.value.minute < 100 && r.value.second < 100
  {
    if !IsTimestamp(s) then None
    else
      var d := s[..19];
      Some(Timestamp(
        DecimalValue(d[0..4]), DecimalValue(d[5..7]), DecimalValue(d[8..10]),
        DecimalValue(d[11..13]), DecimalValue(d[14..16]), DecimalValue(d[17..19]),
        FractionPart(s[19..|s| - 1])))
  }

  /** Fields that fit the fixed-width text form. */
  predicate Representable(t: Timestamp) {
    && t.year < 10000 && t.month < 100 && t.day < 100
    && t.hour < 100 && t.minute < 100 && t.second < 100
    && t.microsecond < MicrosPerSecond
  }

  /** `YYYY-MM-DDTHH:MM:SS` for the date and time of day of t. */
  function DateTimeText(t: Timestamp): (d: string)
    requires Representable(t)
    ensures |d| == 19
  {
    Digits(t.year, 4) + "-" + Digits(t.month, 2) + "-" + Digits(t.day, 2) + "T"
    + Digits(t.hour, 2) + ":" + Digits(t.minute, 2) + ":" + Digits(t.second, 2)
  }

  /** The text form with a six-digit fraction, as the service writes most timestamps. */
  function FormatTimestamp(t: Timestamp): (s: string)
    requires Representable(t)
    ensures |s| == 27
  {
    DateTimeText(t) + "." + Digits(t.microsecond, 6) + "Z"
  }

  /** More than six fraction digits: the seventh and later are truncated. */
  lemma FractionTruncates(frac: string)
    requires AllDigits(frac) && |frac| >= 6
    ensures FractionMicros(frac) == DecimalValue(frac[..6])
  {
    assert (frac + "000000")[..6] == frac[..6];
  }

  /** Digits beyond the sixth never change the microseconds. */
  lemma FractionIgnoresExtraDigits(frac: string, more: string)
    requires AllDigits(frac) && AllDigits(more) && |frac| >= 6
    ensures AllDigits(frac + more)
    ensures FractionMicros(frac + more) == FractionMicros(frac)
  {
    var longer := frac + more;
    assert AllDigits(longer) by {
      forall i | 0 <= i < |longer| ensures IsDigit(longer[i]) {
        if i >= |frac| { assert longer[i] == more[i - |frac|]; }
      }
    }
    FractionTruncates(frac);
    FractionTruncates(longer);
    assert longer[..6] == frac[..6];
  }

  /** Six or fewer fraction digits: the value is right-padded with zeros to six digits. */
  lemma FractionPads(frac: string)
    requires AllDigits(frac) && |frac| <= 6
    ensures FractionMicros(frac) == DecimalValue(frac) * Pow10(6 - |frac|)
  {
    var k := 6 - |frac|;
    ZerosAreZero(k);
    assert (frac + "000000")[..6] == frac + Zeros(k);
    AppendZerosValue(frac, k);
  }

  /** The date-time part of the written form, with its fields where the reader looks for them. */
  lemma DateTimeLayout(y: string, mo: string, d: string, h: string, mi: string, se: string)
    requires |y| == 4 && |mo| == 2 && |d| == 2 && |h| == 2 && |mi| == 2 && |se| == 2
    requires AllDigits(y) && AllDigits(mo) && AllDigits(d) && AllDigits(h) && AllDigits(mi) && AllDigits(se)
    ensures var dt := y + "-" + mo + "-" + d + "T" + h + ":" + mi + ":" + se;
      && IsDateTime(dt)
      && dt[0..4] == y && dt[5..7] == mo && dt[8..10] == d
      && dt[11..13] == h && dt[14..16] == mi && dt[17..19] == se
  {
    var dt := y + "-" + mo + "-" + d + "T" + h + ":" + mi + ":" + se;
    assert dt[0..4] == y && dt[5..7] == mo && dt[8..10] == d;
    assert dt[11..13] == h && dt[14..16] == mi && dt[17..19] == se;
  }

  /** A timestamp splits into its 19-character date-time, its fraction part and the `Z`. */
  lemma TimestampLayout(dt: string, f: string)
    requires |dt| == 19
    ensures var s := dt + f + "Z";
      |s| >= 20 && s[|s| - 1] == 'Z' && s[..19] == dt && s[19..|s| - 1] == f
  {
    var s := dt + f + "Z";
    assert s[..19] == dt;
    assert s[19..|s| - 1] == f;
  }

  /**
   * A date-time followed by any non-empty run of fraction digits and `Z`
   * reads as that date and time with the fraction normalised to microseconds.
   */
  lemma ParseWithFraction(t: Timestamp, frac: string)
    requires Representable(t) && AllDigits(frac) && |frac| >= 1
    ensures ParseTimestamp(DateTimeText(t) + "." + frac + "Z")
         == Some(t.(microsecond := FractionMicros(frac)))
  {
    var y, mo, d := Digits(t.year, 4), Digits(t.month, 2), Digits(t.day, 2);
    var h, mi, se := Digits(t.hour, 2), Digits(t.minute, 2), Digits(t.second, 2);
    var f := "." + frac;
    assert DateTimeText(t) + "." + frac + "Z" == DateTimeText(t) + f + "Z";
    DateTimeLayout(y, mo, d, h, mi, se);
    TimestampLayout(DateTimeText(t), f);
    assert f[1..] == frac;
    DigitsValue(t.year, 4);
    DigitsValue(t.month, 2);
    DigitsValue(t.day, 2);
    DigitsValue(t.hour, 2);
    DigitsValue(t.minute, 2);
    DigitsValue(t.second, 2);
  }

  /** Reading the written form gives back every field. */
  lemma ParseFormatRoundTrip(t: Timestamp)
    requires Representable(t)
    ensures ParseTimestamp(FormatTimestamp(t)) == Some(t)
  {
    var us := Digits(t.microsecond, 6);
    ParseWithFraction(t, us);
    DigitsValue(t.microsecond, 6);
    FractionTruncates(us);
    assert us[..6] == us;
  }
}

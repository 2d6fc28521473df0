/**
 * The fractional seconds of the unit-test fixtures' timestamps, read by the
 * model: a nine-digit fraction is truncated, a five-digit one padded, a
 * six-digit one kept. Timestamps.ParseWithFraction carries each of them
 * into the parsed instant whatever its date and time of day.
 */
module TimestampFixtures {
  import opened Results
  import opened Decimal
  import opened Timestamps

  /** The six leading fraction digits, read in two halves. */
  lemma SixDigitsValue(six: string, hi: string, lo: string)
    requires |six| == 6 && AllDigits(six) && six[..3] == hi && six[3..] == lo
    ensures DecimalValue(six) == 1000 * DecimalValue(hi) + DecimalValue(lo)
    ensures DecimalValue(hi) == 100 * DigitValue(hi[0]) + 10 * DigitValue(hi[1]) + DigitValue(hi[2])
    ensures DecimalValue(lo) == 100 * DigitValue(lo[0]) + 10 * DigitValue(lo[1]) + DigitValue(lo[2])
  {
    DecimalValueSix(six);
    DecimalValueThree(hi);
    DecimalValueThree(lo);
  }

  /** `.916543331` (execution_started_at of the status fixture) is truncated to 916543 microseconds. */
  lemma NineDigitFractionTruncated()
    ensures AllDigits("916543331") && FractionMicros("916543331") == 916543
  {
    assert ("916543331" + "000000")[..6] == "916543";
    SixDigitsValue("916543", "916", "543");
  }

  /** `.58847` (expires_at of the results fixture) is padded to 588470 microseconds. */
  lemma FiveDigitFractionPadded()
    ensures AllDigits("58847") && FractionMicros("58847") == 588470
  {
    assert ("58847" + "000000")[..6] == "588470";
    SixDigitsValue("588470", "588", "470");
  }

  /** `.913138` (submitted_at of every fixture) is kept as it is. */
  lemma SixDigitFractionKept()
    ensures AllDigits("913138") && FractionMicros("913138") == 913138
  {
    assert ("913138" + "000000")[..6] == "913138";
    SixDigitsValue("913138", "913", "138");
  }

  /** `.916543` and `.588467` (the results fixture's start and end) are kept as they are. */
  lemma OtherSixDigitFractionsKept()
    ensures AllDigits("916543") && FractionMicros("916543") == 916543
    ensures AllDigits("588467") && FractionMicros("588467") == 588467
  {
    assert ("916543" + "000000")[..6] == "916543";
    SixDigitsValue("916543", "916", "543");
    assert ("588467" + "000000")[..6] == "588467";
    SixDigitsValue("588467", "588", "467");
  }

  // ---- the fixtures' timestamps, read whole ----

  /** Two-digit fields are written as their tens digit then their units digit. */
  lemma TwoDigitsText(n: nat)
    requires n < 100
    ensures Digits(n, 2) == [DigitChar(n / 10), DigitChar(n % 10)]
  {
    var hi := n / 10;
    assert hi / 10 == 0 && hi % 10 == hi;
    assert Digits(hi, 1) == [DigitChar(hi)];
    assert Digits(n, 2) == Digits(hi, 1) + [DigitChar(n % 10)];
  }

  /** The years of the fixtures, written at four digits. */
  lemma YearDigits()
    ensures Digits(2022, 4) == "2022" && Digits(2024, 4) == "2024"
  {
    assert Digits(2, 1) == "2";
    assert Digits(20, 2) == "20";
    assert Digits(202, 3) == "202";
  }

  /** The months, days, hours, minutes and seconds of the fixtures, written at two digits. */
  lemma FieldDigits()
    ensures Digits(8, 2) == "08" && Digits(28, 2) == "28" && Digits(29, 2) == "29" && Digits(6, 2) == "06"
    ensures Digits(33, 2) == "33" && Digits(36, 2) == "36" && Digits(24, 2) == "24" && Digits(41, 2) == "41"
  {
    TwoDigitsText(8);
    TwoDigitsText(28);
    TwoDigitsText(29);
    TwoDigitsText(6);
    TwoDigitsText(33);
    TwoDigitsText(36);
    TwoDigitsText(24);
    TwoDigitsText(41);
  }

  /** Each fixture date and time is its fields joined by their separators. */
  lemma DateTimeParts()
    ensures "2022-08-29T06:33:24" == "2022" + "-" + "08" + "-" + "29" + "T" + "06" + ":" + "33" + ":" + "24"
    ensures "2024-08-28T06:36:41" == "2024" + "-" + "08" + "-" + "28" + "T" + "06" + ":" + "36" + ":" + "41"
    ensures "2022-08-29T06:36:41" == "2022" + "-" + "08" + "-" + "29" + "T" + "06" + ":" + "36" + ":" + "41"
  {
  }

  /** The submission time of every fixture, without its fraction. */
  lemma SubmittedDateTime()
    ensures DateTimeText(Timestamp(2022, 8, 29, 6, 33, 24, 0)) == "2022-08-29T06:33:24"
  {
    YearDigits();
    FieldDigits();
    assert "2022-08-29T06:33:24" == "2022" + "-" + "08" + "-" + "29" + "T" + "06" + ":" + "33" + ":" + "24" by {
      DateTimeParts();
    }
  }

  /** The results fixture's expiry time, without its fraction. */
  lemma ExpiresDateTime()
    ensures DateTimeText(Timestamp(2024, 8, 28, 6, 36, 41, 0)) == "2024-08-28T06:36:41"
  {
    YearDigits();
    FieldDigits();
    assert "2024-08-28T06:36:41" == "2024" + "-" + "08" + "-" + "28" + "T" + "06" + ":" + "36" + ":" + "41" by {
      DateTimeParts();
    }
  }

  /** The results fixture's end time, without its fraction. */
  lemma EndedDateTime()
    ensures DateTimeText(Timestamp(2022, 8, 29, 6, 36, 41, 0)) == "2022-08-29T06:36:41"
  {
    YearDigits();
    FieldDigits();
    assert "2022-08-29T06:36:41" == "2022" + "-" + "08" + "-" + "29" + "T" + "06" + ":" + "36" + ":" + "41" by {
      DateTimeParts();
    }
  }

  /** A date and time written out, a '.', some fraction digits and `Z` read as that instant at the fraction's microseconds. */
  lemma ReadsAs(t: Timestamp, dt: string, frac: string, s: string, us: nat)
    requires Representable(t) && DateTimeText(t) == dt
    requires AllDigits(frac) && |frac| >= 1 && FractionMicros(frac) == us
    requires s == dt + "." + frac + "Z"
    ensures ParseTimestamp(s) == Some(t.(microsecond := us))
  {
    ParseWithFraction(t, frac);
  }

  /** Each fixture string is its date and time, a '.', its fraction digits and `Z`. */
  lemma FixtureTextParts()
    ensures "2022-08-29T06:33:24.913138Z" == "2022-08-29T06:33:24" + "." + "913138" + "Z"
    ensures "2022-08-29T06:33:24.916543331Z" == "2022-08-29T06:33:24" + "." + "916543331" + "Z"
    ensures "2024-08-28T06:36:41.58847Z" == "2024-08-28T06:36:41" + "." + "58847" + "Z"
    ensures "2022-08-29T06:33:24.916543Z" == "2022-08-29T06:33:24" + "." + "916543" + "Z"
    ensures "2022-08-29T06:36:41.588467Z" == "2022-08-29T06:36:41" + "." + "588467" + "Z"
  {
  }

  /** submitted_at of every fixture reads as datetime(2022, 8, 29, 6, 33, 24, 913138). */
  lemma SubmittedAtRead()
    ensures ParseTimestamp("2022-08-29T06:33:24.913138Z") == Some(Timestamp(2022, 8, 29, 6, 33, 24, 913138))
  {
    SubmittedDateTime();
    SixDigitFractionKept();
    assert "2022-08-29T06:33:24.913138Z" == "2022-08-29T06:33:24" + "." + "913138" + "Z" by {
      FixtureTextParts();
    }
    ReadsAs(Timestamp(2022, 8, 29, 6, 33, 24, 0), "2022-08-29T06:33:24", "913138", "2022-08-29T06:33:24.913138Z", 913138);
  }

  /** execution_started_at of the status fixture reads as datetime(2022, 8, 29, 6, 33, 24, 916543). */
  lemma StatusStartedAtRead()
    ensures ParseTimestamp("2022-08-29T06:33:24.916543331Z") == Some(Timestamp(2022, 8, 29, 6, 33, 24, 916543))
  {
    SubmittedDateTime();
    NineDigitFractionTruncated();
    assert "2022-08-29T06:33:24.916543331Z" == "2022-08-29T06:33:24" + "." + "916543331" + "Z" by {
      FixtureTextParts();
    }
    ReadsAs(Timestamp(2022, 8, 29, 6, 33, 24, 0), "2022-08-29T06:33:24", "916543331", "2022-08-29T06:33:24.916543331Z", 916543);
  }

  /** expires_at of the results fixture reads as datetime(2024, 8, 28, 6, 36, 41, 588470). */
  lemma ExpiresAtRead()
    ensures ParseTimestamp("2024-08-28T06:36:41.58847Z") == Some(Timestamp(2024, 8, 28, 6, 36, 41, 588470))
  {
    ExpiresDateTime();
    FiveDigitFractionPadded();
    assert "2024-08-28T06:36:41.58847Z" == "2024-08-28T06:36:41" + "." + "58847" + "Z" by {
      FixtureTextParts();
    }
    ReadsAs(Timestamp(2024, 8, 28, 6, 36, 41, 0), "2024-08-28T06:36:41", "58847", "2024-08-28T06:36:41.58847Z", 588470);
  }

  /** execution_started_at of the results fixture reads as datetime(2022, 8, 29, 6, 33, 24, 916543). */
  lemma ResultsStartedAtRead()
    ensures ParseTimestamp("2022-08-29T06:33:24.916543Z") == Some(Timestamp(2022, 8, 29, 6, 33, 24, 916543))
  {
    SubmittedDateTime();
    OtherSixDigitFractionsKept();
    assert "2022-08-29T06:33:24.916543Z" == "2022-08-29T06:33:24" + "." + "916543" + "Z" by {
      FixtureTextParts();
    }
    ReadsAs(Timestamp(2022, 8, 29, 6, 33, 24, 0), "2022-08-29T06:33:24", "916543", "2022-08-29T06:33:24.916543Z", 916543);
  }

  /** execution_ended_at of the results fixture reads as datetime(2022, 8, 29, 6, 36, 41, 588467). */
  lemma ResultsEndedAtRead()
    ensures ParseTimestamp("2022-08-29T06:36:41.588467Z") == Some(Timestamp(2022, 8, 29, 6, 36, 41, 588467))
  {
    EndedDateTime();
    OtherSixDigitFractionsKept();
    assert "2022-08-29T06:36:41.588467Z" == "2022-08-29T06:36:41" + "." + "588467" + "Z" by {
      FixtureTextParts();
    }
    ReadsAs(Timestamp(2022, 8, 29, 6, 36, 41, 0), "2022-08-29T06:36:41", "588467", "2022-08-29T06:36:41.588467Z", 588467);
  }
}

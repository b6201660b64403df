/** The date key `get_date_sum` (Pick3_gui.py:37-38): the sum of the eight
    digits of a date written month, day, year as MMDDYYYY. */
module DateKey {
  import opened Digits
  import opened Scoring

  /** A calendar date, as `datetime.date` holds it. */
  datatype Date = Date(year: int, month: int, day: int)

  predicate IsLeapYear(year: int) {
    year % 4 == 0 && (year % 100 != 0 || year % 400 == 0)
  }

  function DaysInMonth(year: int, month: int): int
    requires 1 <= month <= 12
  {
    if month == 2 then (if IsLeapYear(year) then 29 else 28)
    else if month == 4 || month == 6 || month == 9 || month == 11 then 30
    else 31
  }

  /** A real calendar date with a four-digit year. */
  predicate IsValid(d: Date) {
    && 1000 <= d.year <= 9999
    && 1 <= d.month <= 12
    && 1 <= d.day <= DaysInMonth(d.year, d.month)
  }

  /** `date.strftime('%m%d%Y')`: month and day zero-padded to two digits,
      the year to four. */
  function FormatMDY(d: Date): string
    requires IsValid(d)
  {
    ZFill(DecimalString(d.month), 2) + ZFill(DecimalString(d.day), 2) + ZFill(DecimalString(d.year), 4)
  }

  /** `get_date_sum(date)` */
  function DateSum(d: Date): nat
    requires IsValid(d)
  {
    DigitSum(FormatMDY(d))
  }

  /** A number below 100, zero-padded to two characters. */
  lemma TwoDigitText(n: nat)
    requires n < 100
    ensures ZFill(DecimalString(n), 2) == [DigitChar(n / 10), DigitChar(n % 10)]
  {
    var s := DecimalString(n);
    if n < 10 {
      assert n / 10 == 0 && n % 10 == n;
      assert s == [DigitChar(n)];
      var t := ['0'] + s;
      assert ZFill(s, 2) == ZFill(t, 2);
      assert |t| == 2;
      assert ZFill(t, 2) == t;
      assert DigitChar(0) == '0';
    } else {
      assert DecimalString(n / 10) == [DigitChar(n / 10)];
      assert s == [DigitChar(n / 10), DigitChar(n % 10)];
      assert ZFill(s, 2) == s;
    }
  }

  /** A four-digit number written out. */
  lemma FourDigitText(n: nat)
    requires 1000 <= n <= 9999
    ensures ZFill(DecimalString(n), 4) == [DigitChar(n / 1000), DigitChar(n / 100 % 10)]
                                         + [DigitChar(n / 10 % 10), DigitChar(n % 10)]
  {
    var thousands, hundreds, tens := n / 1000, n / 100, n / 10;
    assert tens / 10 == hundreds && hundreds / 10 == thousands && thousands < 10;
    var s1 := DecimalString(thousands);
    assert s1 == [DigitChar(thousands)];
    var s2 := DecimalString(hundreds);
    assert s2 == s1 + [DigitChar(hundreds % 10)];
    var s3 := DecimalString(tens);
    assert s3 == s2 + [DigitChar(tens % 10)];
    var s4 := DecimalString(n);
    assert s4 == s3 + [DigitChar(n % 10)];
    assert |s4| == 4;
    assert ZFill(s4, 4) == s4;
  }

  lemma PairDigitSum(a: Digit, b: Digit)
    ensures DigitSum([DigitChar(a), DigitChar(b)]) == a + b
  {
    assert [DigitChar(a), DigitChar(b)][1..] == [DigitChar(b)];
  }

  /** The formatted date is eight digits: MM, DD and YYYY in that order. */
  lemma FormatMDYDigits(d: Date)
    requires IsValid(d)
    ensures FormatMDY(d) == [DigitChar(d.month / 10), DigitChar(d.month % 10)]
                          + [DigitChar(d.day / 10), DigitChar(d.day % 10)]
                          + ([DigitChar(d.year / 1000), DigitChar(d.year / 100 % 10)]
                             + [DigitChar(d.year / 10 % 10), DigitChar(d.year % 10)])
    ensures |FormatMDY(d)| == 8 && IsDigitString(FormatMDY(d))
  {
    TwoDigitText(d.month);
    TwoDigitText(d.day);
    FourDigitText(d.year);
  }

  /** The date key is the sum of the eight digits of MMDDYYYY. */
  lemma DateSumDigits(d: Date)
    requires IsValid(d)
    ensures DateSum(d) == d.month / 10 + d.month % 10 + d.day / 10 + d.day % 10
                        + d.year / 1000 + d.year / 100 % 10 + d.year / 10 % 10 + d.year % 10
  {
    FormatMDYDigits(d);
    var mm := [DigitChar(d.month / 10), DigitChar(d.month % 10)];
    var dd := [DigitChar(d.day / 10), DigitChar(d.day % 10)];
    var yh := [DigitChar(d.year / 1000), DigitChar(d.year / 100 % 10)];
    var yl := [DigitChar(d.year / 10 % 10), DigitChar(d.year % 10)];
    PairDigitSum(d.month / 10, d.month % 10);
    PairDigitSum(d.day / 10, d.day % 10);
    PairDigitSum(d.year / 1000, d.year / 100 % 10);
    PairDigitSum(d.year / 10 % 10, d.year % 10);
    DigitSumConcat(yh, yl);
    DigitSumConcat(mm, dd);
    DigitSumConcat(mm + dd, yh + yl);
  }

  /** The date key of any date lies between 3 (01, 01, 1000: month, day and
      the year's leading digit are each at least 1) and 56 (09, 29, 9999). */
  lemma DateSumRange(d: Date)
    requires IsValid(d)
    ensures 3 <= DateSum(d) <= 56
  {
    DateSumDigits(d);
    assert 1 <= d.month / 10 + d.month % 10 <= 9;
    assert 1 <= d.day / 10 + d.day % 10 <= 11;
    assert 1 <= d.year / 1000;
  }

  /** 15 June 2024 formats as "06152024", whose digits sum to 20. */
  lemma DateSumExample(d: Date)
    requires d == Date(2024, 6, 15)
    ensures IsValid(d) && DateSum(d) == 20
  {
    assert IsValid(d) by {
      assert DaysInMonth(d.year, d.month) == 30;
    }
    var y, m, day := d.year, d.month, d.day;
    assert y / 1000 == 2 && y / 100 % 10 == 0 && y / 10 % 10 == 2 && y % 10 == 4;
    assert m / 10 == 0 && m % 10 == 6 && day / 10 == 1 && day % 10 == 5;
    DateSumDigits(d);
  }
}

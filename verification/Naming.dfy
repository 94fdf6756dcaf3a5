/** The texts the service makes of numbers and dates, and the amounts it reads, against the calendar and positional
    notation written out. */
module Naming {
  import opened Common
  import opened Digits
  import opened Converters
  import opened Allocation

  // ----- decimal numerals

  predicate IsNumeral(s: string)
  {
    forall i :: 0 <= i < |s| ==> '0' <= s[i] <= '9'
  }

  /** The number a decimal numeral stands for. */
  function Value(s: string): int
  {
    if s == [] then 0 else 10 * Value(s[..|s| - 1]) + (s[|s| - 1] as int - 48)
  }

  function TwoDigits(n: nat): string
    requires n < 100
  {
    ["0123456789"[n / 10], "0123456789"[n % 10]]
  }

  lemma {:induction false} ValueIs(s: string)
    requires IsNumeral(s)
    ensures AllDigits(s, 10) && FromBase(s, 10) == Value(s)
    decreases |s|
  {
    if s != [] {
      var t, c := s[..|s| - 1], s[|s| - 1];
      ValueIs(t);
      FromBaseAppend(t, c, 10);
      assert s == t + [c];
    }
  }

  /** `toString()`: the numeral of the number, without leading zeros. */
  lemma NumeralOf(n: nat)
    ensures var s := ToBase(n, 10); IsNumeral(s) && Value(s) == n && |s| >= 1 && (n > 0 ==> s[0] != '0')
  {
    ToBaseCanonical(n, 10);
    var s := ToBase(n, 10);
    forall i | 0 <= i < |s| ensures '0' <= s[i] <= '9' {
      assert IsDigit(s[i], 10);
    }
    ValueIs(s);
  }

  lemma DigitTexts(d: nat)
    requires d < 10
    ensures DigitChar(d) == "0123456789"[d]
  {
  }

  lemma PaddedToTwo(n: nat)
    requires n < 100
    ensures PadStart(n, 2) == TwoDigits(n)
  {
    DigitTexts(n / 10);
    DigitTexts(n % 10);
    if n < 10 {
      assert ToBase(n, 10) == [DigitChar(n)];
    } else {
      assert ToBase(n / 10, 10) == [DigitChar(n / 10)];
      assert ToBase(n, 10) == [DigitChar(n / 10), DigitChar(n % 10)];
    }
  }

  /** An identifier is the name, a dot and the number with at least three digits, zeros in front. */
  lemma IdentifierText(name: string, n: nat) returns (s: string)
    ensures BatchIdentifier(name, n) == name + "." + s
    ensures IsNumeral(s) && Value(s) == n && |s| >= 3 && (|s| > 3 ==> s[0] != '0')
  {
    NumeralOf(n);
    var t := ToBase(n, 10);
    s := if |t| < 3 then Zeros(3 - |t|) + t else t;
    PadStartValue(n, 3);
    ValueIs(s);
  }

  // ----- the calendar

  predicate Leap(y: int)
  {
    (y % 4 == 0 && y % 100 != 0) || y % 400 == 0
  }

  /** Days from the beginning of 1970 to that of year y. */
  function DaysToYear(y: int): int
    requires y >= 1970
    decreases y
  {
    if y == 1970 then 0 else DaysToYear(y - 1) + if Leap(y - 1) then 366 else 365
  }

  function DaysInMonth(m: int, y: int): int
  {
    if m == 2 then (if Leap(y) then 29 else 28) else if m in {4, 6, 9, 11} then 30 else 31
  }

  /** Days from the beginning of year y to that of its month m. */
  function DaysToMonth(m: int, y: int): int
    requires m >= 1
  {
    if m == 1 then 0 else DaysToMonth(m - 1, y) + DaysInMonth(m - 1, y)
  }

  /** A minute of the calendar. */
  datatype Civil = Civil(year: int, month: int, day: int, hour: int, minute: int)

  predicate OnCalendar(c: Civil)
  {
    && c.year >= 1970 && 1 <= c.month <= 12 && 1 <= c.day <= DaysInMonth(c.month, c.year)
    && 0 <= c.hour < 24 && 0 <= c.minute < 60
  }

  function MinutesSinceEpoch(c: Civil): int
    requires OnCalendar(c)
  {
    ((DaysToYear(c.year) + DaysToMonth(c.month, c.year) + c.day - 1) * 24 + c.hour) * 60 + c.minute
  }

  lemma {:induction false} YearsAgree(y: int)
    requires y >= 1970
    ensures DayFromYear(y) == DaysToYear(y)
    decreases y
  {
    if y > 1970 {
      YearsAgree(y - 1);
      YearLength(y - 1);
      LeapCycles(y - 1);
    }
  }

  lemma {:induction false} MonthsAgree(m: nat, y: int)
    requires m <= 12
    ensures DaysBefore(m, InLeapYear(y)) == DaysToMonth(m + 1, y)
    ensures m < 12 ==> MonthLength(m, InLeapYear(y)) == DaysInMonth(m + 1, y)
  {
    LeapCycles(y);
    if m > 0 {
      MonthsAgree(m - 1, y);
    }
  }

  /** The fields of a day lie on the calendar. */
  lemma DateOnCalendar(day: nat)
    ensures var f := DateOfDay(day);
            && f.year >= 1970 && 1 <= f.date <= DaysInMonth(f.month, f.year)
            && day == DaysToYear(f.year) + DaysToMonth(f.month, f.year) + f.date - 1
  {
    Beginnings();
    hide DayFromYear, DaysToYear, DaysBefore, DaysToMonth, MonthLength, DaysInMonth, InLeapYear, YearFrom, MonthFrom;
    var y := YearFrom(1970, day);
    YearLength(y);
    DaysOfYear(InLeapYear(y));
    var leap := InLeapYear(y);
    assert DaysBefore(0, leap) == 0;
    var m := MonthFrom(0, day - DayFromYear(y), leap);
    YearsAgree(y);
    MonthsAgree(m, y);
    NextMonth(m, leap);
  }

  lemma Beginnings()
    ensures DayFromYear(1970) == 0 && DaysBefore(0, true) == 0 && DaysBefore(0, false) == 0
  {
  }

  lemma NextMonth(m: nat, leap: bool)
    ensures DaysBefore(m + 1, leap) == DaysBefore(m, leap) + MonthLength(m, leap)
  {
  }

  /** The name of a batch is its model, its currency and the UTC minute its window begins in, as year, month, day,
      hour and minute, all but the year with two digits. */
  lemma NameText(model: string, code: string, start: nat) returns (c: Civil, year: string)
    ensures OnCalendar(c) && MinutesSinceEpoch(c) == start / 60_000
    ensures IsNumeral(year) && Value(year) == c.year && year != [] && year[0] != '0'
    ensures BatchName(model, code, start)
            == model + "." + code + "." + year + "." + TwoDigits(c.month) + "." + TwoDigits(c.day)
               + "." + TwoDigits(c.hour) + "." + TwoDigits(c.minute)
  {
    var minute := start / 60_000;
    var f := UtcFields(start);
    DateOnCalendar(minute / 1440);
    MinuteSplit(minute);
    c, year := Civil(f.year, f.month, f.date, f.hours, f.minutes), ToBase(f.year, 10);
    NumeralOf(f.year);
    PaddedToTwo(f.month);
    PaddedToTwo(f.date);
    PaddedToTwo(f.hours);
    PaddedToTwo(f.minutes);
    Rejoined(model + "." + code + "." + year, TwoDigits(c.month), TwoDigits(c.day), TwoDigits(c.hour),
             TwoDigits(c.minute));
  }

  lemma Rejoined(a: string, b: string, c: string, d: string, e: string)
    ensures a + ("." + b + "." + c + "." + d + "." + e) == a + "." + b + "." + c + "." + d + "." + e
  {
  }

  // ----- amounts

  /** The amount grammar: up to 18 digits without a leading zero, then up to 4 digits without a trailing zero. */
  predicate WellWritten(i: string, f: string)
  {
    && IsNumeral(i) && IsNumeral(f)
    && (i == "0" || (1 <= |i| <= 18 && i[0] != '0'))
    && (f == "" || (|f| <= 4 && f[|f| - 1] != '0'))
  }

  function Written(i: string, f: string): string
  {
    if f == "" then i else i + "." + f
  }

  lemma NumeralDigits(s: string)
    ensures IsNumeral(s) <==> AllDigits(s, 10)
  {
    if AllDigits(s, 10) {
      forall i | 0 <= i < |s| ensures '0' <= s[i] <= '9' {
        assert IsDigit(s[i], 10);
      }
    }
  }

  lemma PartsAre(i: string, f: string)
    requires IsNumeral(i) && IsNumeral(f) && i != ""
    ensures WellWritten(i, f) <==> IntegerPart(i) && (f == [] || FractionPart(f))
    ensures Written(i, f) == Joined(i, f) && AllDigits(i, 10) && AllDigits(f, 10)
  {
    NumeralDigits(i);
    NumeralDigits(f);
  }

  /** What is read: exactly the well-written amounts with no more decimals than the currency has, in the smallest
      unit of the currency. */
  lemma AmountRead(i: string, f: string, decimals: nat)
    requires IsNumeral(i) && IsNumeral(f) && i != ""
    ensures var r := StringToBigint(Written(i, f), decimals);
            && (r.Ok? <==> WellWritten(i, f) && |f| <= decimals)
            && (r.Err? ==> r.error == if WellWritten(i, f) then TooManyDecimals else RegexFailed)
    ensures WellWritten(i, f) && |f| <= decimals ==>
              StringToBigint(Written(i, f), decimals)
              == Ok(Value(i) * Pow(10, decimals) + Value(f) * Pow(10, decimals - |f|))
  {
    hide Value, FromBase, Pow, IsNumeral, WellWritten, Written, Joined, AllDigits, IntegerPart, FractionPart, Accepts,
         DecimalsOf, WithoutDot;
    PartsAre(i, f);
    ReadJoined(i, f, decimals);
    WrongText(i, f, decimals);
    ValueIs(i);
    ValueIs(f);
    if WellWritten(i, f) && |f| <= decimals {
      ShiftedSum(i, f, decimals - |f|);
    }
  }

  lemma WrongText(i: string, f: string, decimals: nat)
    requires AllDigits(i, 10) && AllDigits(f, 10) && i != []
    ensures Accepts(Joined(i, f)) && |f| > decimals ==> StringToBigint(Joined(i, f), decimals) == Err(TooManyDecimals)
    ensures !Accepts(Joined(i, f)) ==> StringToBigint(Joined(i, f), decimals) == Err(RegexFailed)
  {
    hide Accepts;
    ReadJoined(i, f, decimals);
  }

  lemma ShiftedSum(i: string, f: string, n: nat)
    ensures FromBase(i + f + Zeros(n), 10) == FromBase(i, 10) * Pow(10, |f| + n) + FromBase(f, 10) * Pow(10, n)
  {
    FromBaseConcat(i + f, Zeros(n), 10);
    FromBaseConcat(i, f, 10);
    FromBaseZeros(n, 10);
    PowAdd(10, |f|, n);
    Distributed(FromBase(i, 10), Pow(10, |f|), FromBase(f, 10), Pow(10, n));
  }

  lemma Distributed(a: int, p: int, b: int, q: int)
    ensures (a * p + b) * q == a * (p * q) + b * q
  {
  }

  /** Whatever is read is written that way, possibly behind a minus sign, which makes it negative. */
  lemma OnlyAmountsRead(s: string, decimals: nat) returns (i: string, f: string)
    requires StringToBigint(s, decimals).Ok?
    ensures WellWritten(i, f) && |f| <= decimals
    ensures s == Written(i, f) || (s == "-" + Written(i, f) && StringToBigint(Written(i, f), decimals).Ok?)
    ensures s == "-" + Written(i, f) ==>
              StringToBigint(s, decimals).value == -StringToBigint(Written(i, f), decimals).value
  {
    hide Value, FromBase, Pow, IsNumeral, AllDigits, IntegerPart, FractionPart, AcceptsUnsigned, DecimalsOf, WithoutDot;
    var u := if |s| > 0 && s[0] == '-' then s[1..] else s;
    i, f := PartsOf(u);
    NegatedRead(s, u, decimals);
    AmountRead(i, f, decimals);
  }

  lemma PartsOf(u: string) returns (i: string, f: string)
    requires AcceptsUnsigned(u)
    ensures u == Written(i, f) && WellWritten(i, f) && i != "" && u != "" && u[0] != '-'
  {
    AcceptedParts(u);
    DotAtIndex(u);
    var dot := DotIndex(u);
    i, f := u[..dot], if dot < |u| then u[dot + 1..] else [];
    PartsAre(i, f) by {
      NumeralDigits(i);
      NumeralDigits(f);
    }
    assert IsDigit(i[0], 10);
  }

  lemma NegatedRead(s: string, u: string, decimals: nat)
    requires StringToBigint(s, decimals).Ok? && u == (if |s| > 0 && s[0] == '-' then s[1..] else s)
    ensures AcceptsUnsigned(u)
    ensures u != "" && u[0] != '-' ==> StringToBigint(u, decimals).Ok?
    ensures u != "" && u[0] != '-' && s != u ==>
              s == "-" + u && StringToBigint(s, decimals).value == -StringToBigint(u, decimals).value
  {
    if s != u && u != "" && u[0] != '-' {
      assert s == "-" + u;
      ReadNegative(u, decimals);
    }
  }
}

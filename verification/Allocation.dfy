/** packages/domain-lib/src/types/settlement_config.ts and the batch naming of the aggregate. */
module Allocation {
  import opened Digits

  const MS_PER_MINUTE: nat := 60_000
  const SEQUENCE_STR_LENGTH: nat := 3

  // ----- the window of a transfer

  /** `Math.floor(timestamp / 1000 / interval) * interval * 1000`, with exact quotients. */
  function BatchStart(timestamp: int, interval: nat): int
    requires interval > 0
  {
    timestamp / (1000 * interval) * interval * 1000
  }

  lemma StartIsWindow(timestamp: int, interval: nat)
    requires interval > 0
    ensures BatchStart(timestamp, interval) <= timestamp < BatchStart(timestamp, interval) + 1000 * interval
    ensures BatchStart(timestamp, interval) % (1000 * interval) == 0
  {
    var width := 1000 * interval;
    var q := timestamp / width;
    assert timestamp == q * width + timestamp % width;
    assert BatchStart(timestamp, interval) == q * width;
    Multiple(q, width);
  }

  lemma Multiple(q: int, n: nat)
    requires n > 0
    ensures (q * n) % n == 0 && (q * n) / n == q
  {
    LastDigit((q * n) / n, (q * n) % n, q, 0, n);
  }

  /** Two multiples of n whose windows share a point are the same multiple. */
  lemma SameWindowUnique(s: int, t: int, x: int, n: nat, p: int, q: int)
    requires n > 0 && s == p * n && t == q * n
    requires s <= x < s + n && t <= x < t + n
    ensures s == t && p == q
  {
    LastDigit(p, x - s, q, x - t, n);
  }

  lemma StartUnique(s: int, x: int, interval: nat)
    requires interval > 0 && s % (1000 * interval) == 0
    requires s <= x < s + 1000 * interval
    ensures BatchStart(x, interval) == s
  {
    var n := 1000 * interval;
    StartIsWindow(x, interval);
    var t := BatchStart(x, interval);
    SameWindowUnique(s, t, x, n, s / n, t / n);
  }

  /** Transfers share a window start exactly when they fall in the same window. */
  lemma AllocationDeterministic(x: int, y: int, interval: nat)
    requires interval > 0
    ensures BatchStart(BatchStart(x, interval), interval) == BatchStart(x, interval)
    ensures x <= y ==> BatchStart(x, interval) <= BatchStart(y, interval)
    ensures BatchStart(x, interval) == BatchStart(y, interval) <==>
              BatchStart(x, interval) <= y < BatchStart(x, interval) + 1000 * interval
  {
    var s, t := BatchStart(x, interval), BatchStart(y, interval);
    StartIsWindow(x, interval);
    StartIsWindow(y, interval);
    StartUnique(s, s, interval);
    if s <= y < s + 1000 * interval {
      StartUnique(s, y, interval);
    }
    if x <= y && t < s {
      StartUnique(t, x, interval);
    }
  }

  // ----- UTC fields, section 21.4.1 of ECMA-262

  function DayFromYear(y: int): int
  {
    365 * (y - 1970) + (y - 1969) / 4 - (y - 1901) / 100 + (y - 1601) / 400
  }

  predicate InLeapYear(y: int)
  {
    y % 4 == 0 && (y % 100 != 0 || y % 400 == 0)
  }

  lemma QuotientStep(a: int, n: nat)
    requires n > 0
    ensures (a + 1) / n - a / n == if (a + 1) % n == 0 then 1 else 0
  {
    var q, r := a / n, a % n;
    if r + 1 < n {
      LastDigit((a + 1) / n, (a + 1) % n, q, r + 1, n);
    } else {
      LastDigit((a + 1) / n, (a + 1) % n, q + 1, 0, n);
    }
  }

  lemma YearLength(y: int)
    ensures DayFromYear(y + 1) - DayFromYear(y) == if InLeapYear(y) then 366 else 365
  {
    QuotientStep(y - 1969, 4);
    QuotientStep(y - 1901, 100);
    QuotientStep(y - 1601, 400);
    LeapCycles(y);
  }

  lemma ShiftedRemainder(y: int, q: int, n: nat)
    requires n > 0
    ensures (y - q * n) % n == y % n
  {
    var z := y - q * n;
    assert z == (y / n - q) * n + y % n;
    LastDigit(z / n, z % n, y / n - q, y % n, n);
  }

  lemma LeapCycles(y: int)
    ensures (y - 1968) % 4 == y % 4 && (y - 1900) % 100 == y % 100 && (y - 1600) % 400 == y % 400
    ensures y % 400 == 0 ==> y % 100 == 0
    ensures y % 100 == 0 ==> y % 4 == 0
  {
    ShiftedRemainder(y, 492, 4);
    ShiftedRemainder(y, 19, 100);
    ShiftedRemainder(y, 4, 400);
    if y % 400 == 0 {
      Multiple(4 * (y / 400), 100);
    }
    if y % 100 == 0 {
      Multiple(25 * (y / 100), 4);
    }
  }

  /** The largest year from `y` on that begins no later than `day`. */
  function YearFrom(y: int, day: int): (r: int)
    requires DayFromYear(y) <= day
    ensures y <= r && DayFromYear(r) <= day < DayFromYear(r + 1)
    decreases day - DayFromYear(y)
  {
    YearLength(y);
    if DayFromYear(y + 1) <= day then YearFrom(y + 1, day) else y
  }

  function MonthLength(m: nat, leap: bool): (n: nat)
    ensures 28 <= n <= 31
  {
    if m == 1 then (if leap then 29 else 28) else if m == 3 || m == 5 || m == 8 || m == 10 then 30 else 31
  }

  /** Days of the year before month m (from 0). */
  function DaysBefore(m: nat, leap: bool): nat
  {
    if m == 0 then 0 else DaysBefore(m - 1, leap) + MonthLength(m - 1, leap)
  }

  lemma DaysOfYear(leap: bool)
    ensures DaysBefore(12, leap) == if leap then 366 else 365
  {
    var l := if leap then 1 else 0;
    assert DaysBefore(1, leap) == 31;
    assert DaysBefore(2, leap) == 59 + l;
    assert DaysBefore(4, leap) == 120 + l;
    assert DaysBefore(6, leap) == 181 + l;
    assert DaysBefore(8, leap) == 243 + l;
    assert DaysBefore(10, leap) == 304 + l;
  }

  /** The month (from 0) the day of the year falls in, searching upwards from m. */
  function MonthFrom(m: nat, day: int, leap: bool): (r: nat)
    requires m < 12 && DaysBefore(m, leap) <= day < DaysBefore(12, leap)
    ensures r < 12 && DaysBefore(r, leap) <= day < DaysBefore(r + 1, leap)
    decreases 12 - m
  {
    if DaysBefore(m + 1, leap) <= day then MonthFrom(m + 1, day, leap) else m
  }

  datatype Fields = Fields(year: nat, month: nat, date: nat, hours: nat, minutes: nat)

  predicate InRange(f: Fields)
  {
    1 <= f.month <= 12 && 1 <= f.date <= 31 && f.hours < 24 && f.minutes < 60
  }

  /** Minutes since the epoch at which these fields begin. */
  function MinuteOf(f: Fields): int
    requires InRange(f)
  {
    (DayOf(f) * 24 + f.hours) * 60 + f.minutes
  }

  /** Day(t), HourFromTime(t) and MinFromTime(t) taken from the whole minutes since the epoch. */
  function UtcFields(t: nat): (f: Fields)
    ensures InRange(f) && MinuteOf(f) == t / MS_PER_MINUTE
  {
    FieldsOfMinute(t / MS_PER_MINUTE)
  }

  function FieldsOfMinute(minute: nat): (f: Fields)
    ensures InRange(f) && MinuteOf(f) == minute
  {
    var date := DateOfDay(minute / 1440);
    MinuteSplit(minute);
    var f := Fields(date.year, date.month, date.date, minute / 60 % 24, minute % 60);
    assert DayOf(f) == DayOf(date);
    f
  }

  function DayOf(f: Fields): int
    requires InRange(f)
  {
    DayFromYear(f.year) + DaysBefore(f.month - 1, InLeapYear(f.year)) + f.date - 1
  }

  function DateOfDay(day: nat): (f: Fields)
    ensures InRange(f) && DayOf(f) == day
  {
    var y := YearFrom(1970, day);
    YearLength(y);
    DaysOfYear(InLeapYear(y));
    var m := MonthFrom(0, day - DayFromYear(y), InLeapYear(y));
    Fields(y, m + 1, day - DayFromYear(y) - DaysBefore(m, InLeapYear(y)) + 1, 0, 0)
  }

  lemma MinuteSplit(minute: nat)
    ensures (minute / 1440 * 24 + minute / 60 % 24) * 60 + minute % 60 == minute
  {
    assert minute / 1440 == minute / 60 / 24;
  }

  // ----- names and identifiers

  /** `n.toString().padStart(width, "0")` */
  function PadStart(n: nat, width: nat): string
  {
    var s := ToBase(n, 10);
    if |s| < width then Zeros(width - |s|) + s else s
  }

  function MinuteText(f: Fields): string
  {
    "." + PadStart(f.month, 2) + "." + PadStart(f.date, 2) + "." + PadStart(f.hours, 2) + "." + PadStart(f.minutes, 2)
  }

  function BatchName(model: string, currencyCode: string, start: nat): string
  {
    var f := UtcFields(start);
    model + "." + currencyCode + "." + ToBase(f.year, 10) + MinuteText(f)
  }

  function BatchIdentifier(batchName: string, batchSeq: nat): string
  {
    batchName + "." + PadStart(batchSeq, SEQUENCE_STR_LENGTH)
  }

  lemma PadStartValue(n: nat, width: nat)
    ensures AllDigits(PadStart(n, width), 10) && FromBase(PadStart(n, width), 10) == n
    ensures '.' !in PadStart(n, width)
  {
    var s := ToBase(n, 10);
    ToBaseCanonical(n, 10);
    if |s| < width {
      LeadingZeros(width - |s|, s, 10);
      ZerosAreDigits(width - |s|, s, 10);
    }
    NoDotInDigits(PadStart(n, width));
  }

  lemma NoDotInDigits(s: string)
    requires AllDigits(s, 10)
    ensures '.' !in s
  {
    forall c | c in s ensures c != '.' {
      var k :| 0 <= k < |s| && s[k] == c;
      assert IsDigit(s[k], 10);
    }
  }

  lemma PadStartTwo(n: nat)
    requires n < 100
    ensures |PadStart(n, 2)| == 2
  {
    ToBaseLength(n, 10, 2);
    assert Pow(10, 2) == 100;
  }

  /** Strings split at their last dot in one way only. */
  lemma SplitAtLastDot(a: string, b: string, c: string, d: string)
    requires a + "." + b == c + "." + d && '.' !in b && '.' !in d
    ensures a == c && b == d
  {
    DotBound(a, b, c, d);
    DotBound(c, d, a, b);
    var s := a + "." + b;
    assert a == s[..|a|] && c == s[..|c|];
    assert b == s[|a| + 1..] && d == s[|c| + 1..];
  }

  lemma DotBound(a: string, b: string, c: string, d: string)
    requires a + "." + b == c + "." + d && '.' !in b
    ensures |c| <= |a|
  {
    var s := a + "." + b;
    assert s[|c|] == '.';
    assert forall k :: |a| < k < |s| ==> s[k] == b[k - |a| - 1];
  }

  /** Padding beyond three digits keeps identifiers apart: one identifier per name and number. */
  lemma IdentifierInjective(n1: string, s1: nat, n2: string, s2: nat)
    ensures BatchIdentifier(n1, s1) == BatchIdentifier(n2, s2) <==> n1 == n2 && s1 == s2
  {
    if BatchIdentifier(n1, s1) == BatchIdentifier(n2, s2) {
      PadStartValue(s1, SEQUENCE_STR_LENGTH);
      PadStartValue(s2, SEQUENCE_STR_LENGTH);
      SplitAtLastDot(n1, PadStart(s1, SEQUENCE_STR_LENGTH), n2, PadStart(s2, SEQUENCE_STR_LENGTH));
    }
  }

  lemma MinuteTextShape(f: Fields)
    requires InRange(f)
    ensures var s := MinuteText(f);
            && |s| == 12 && s[1..3] == PadStart(f.month, 2) && s[4..6] == PadStart(f.date, 2)
            && s[7..9] == PadStart(f.hours, 2) && s[10..12] == PadStart(f.minutes, 2)
  {
    PadStartTwo(f.month);
    PadStartTwo(f.date);
    PadStartTwo(f.hours);
    PadStartTwo(f.minutes);
  }

  lemma PadStartInjective(m: nat, n: nat, width: nat)
    requires PadStart(m, width) == PadStart(n, width)
    ensures m == n
  {
    PadStartValue(m, width);
    PadStartValue(n, width);
  }

  lemma MinuteTextInjective(f: Fields, g: Fields)
    requires InRange(f) && InRange(g) && MinuteText(f) == MinuteText(g)
    ensures f.month == g.month && f.date == g.date && f.hours == g.hours && f.minutes == g.minutes
  {
    MinuteTextShape(f);
    MinuteTextShape(g);
    PadStartInjective(f.month, g.month, 2);
    PadStartInjective(f.date, g.date, 2);
    PadStartInjective(f.hours, g.hours, 2);
    PadStartInjective(f.minutes, g.minutes, 2);
  }

  /** For dot-free currency codes a batch name stands for one model, currency and minute. */
  lemma BatchNameInjective(m1: string, c1: string, t1: nat, m2: string, c2: string, t2: nat)
    requires '.' !in c1 && '.' !in c2
    ensures BatchName(m1, c1, t1) == BatchName(m2, c2, t2) <==>
              m1 == m2 && c1 == c2 && t1 / MS_PER_MINUTE == t2 / MS_PER_MINUTE
  {
    var f, g := UtcFields(t1), UtcFields(t2);
    if BatchName(m1, c1, t1) == BatchName(m2, c2, t2) {
      NamePartsEqual(m1, c1, f, m2, c2, g);
    }
  }

  lemma NamePartsEqual(m1: string, c1: string, f: Fields, m2: string, c2: string, g: Fields)
    requires '.' !in c1 && '.' !in c2 && InRange(f) && InRange(g)
    requires m1 + "." + c1 + "." + ToBase(f.year, 10) + MinuteText(f)
        == m2 + "." + c2 + "." + ToBase(g.year, 10) + MinuteText(g)
    ensures m1 == m2 && c1 == c2 && f == g
  {
    MinuteTextShape(f);
    MinuteTextShape(g);
    var y, z := ToBase(f.year, 10), ToBase(g.year, 10);
    SameSuffix(m1 + "." + c1 + "." + y, MinuteText(f), m2 + "." + c2 + "." + z, MinuteText(g));
    MinuteTextInjective(f, g);
    ToBaseCanonical(f.year, 10);
    ToBaseCanonical(g.year, 10);
    NoDotInDigits(y);
    NoDotInDigits(z);
    SplitAtLastDot(m1 + "." + c1, y, m2 + "." + c2, z);
    SplitAtLastDot(m1, c1, m2, c2);
  }

  lemma SameSuffix(a: string, s: string, b: string, t: string)
    requires a + s == b + t && |s| == |t|
    ensures a == b && s == t
  {
    assert a == (a + s)[..|a|] && b == (b + t)[..|b|];
    assert s == (a + s)[|a|..] && t == (b + t)[|b|..];
  }

  /** Two windows of a model and currency share a name exactly when they begin in one minute, which for windows of
      at least a minute means they are the same window. */
  lemma WindowsNamedApart(model: string, currencyCode: string, x: nat, y: nat, interval: nat)
    requires interval > 0 && '.' !in currencyCode
    ensures BatchStart(x, interval) >= 0 && BatchStart(y, interval) >= 0
    ensures NameAt(model, currencyCode, x, interval) == NameAt(model, currencyCode, y, interval) <==>
              BatchStart(x, interval) / MS_PER_MINUTE == BatchStart(y, interval) / MS_PER_MINUTE
    ensures interval >= 60 ==>
              (BatchStart(x, interval) / MS_PER_MINUTE == BatchStart(y, interval) / MS_PER_MINUTE <==>
                 BatchStart(x, interval) == BatchStart(y, interval))
  {
    StartNotNegative(x, interval);
    StartNotNegative(y, interval);
    BatchNameInjective(model, currencyCode, BatchStart(x, interval), model, currencyCode, BatchStart(y, interval));
    if interval >= 60 && BatchStart(x, interval) / MS_PER_MINUTE == BatchStart(y, interval) / MS_PER_MINUTE {
      StartIsWindow(x, interval);
      StartIsWindow(y, interval);
      CloseMultiples(BatchStart(x, interval), BatchStart(y, interval), 1000 * interval);
    }
  }

  /** The name a transfer with this timestamp is batched under. */
  function NameAt(model: string, currencyCode: string, timestamp: nat, interval: nat): string
    requires interval > 0
  {
    StartNotNegative(timestamp, interval);
    BatchName(model, currencyCode, BatchStart(timestamp, interval))
  }

  /** Multiples of n less than n apart are the same. */
  lemma CloseMultiples(s: int, t: int, n: nat)
    requires n > 0 && s % n == 0 && t % n == 0 && s - t < n && t - s < n
    ensures s == t
  {
    if s <= t {
      SameWindowUnique(s, t, t, n, s / n, t / n);
    } else {
      SameWindowUnique(s, t, s, n, s / n, t / n);
    }
  }

  /** Different windows of a model and currency have different names exactly when the windows are at least one
      minute long. */
  lemma WindowsNamedApartExactly(model: string, currencyCode: string, interval: nat)
    requires interval > 0 && '.' !in currencyCode
    ensures (forall x: nat, y: nat ::
               NameAt(model, currencyCode, x, interval) == NameAt(model, currencyCode, y, interval) ==>
                 BatchStart(x, interval) == BatchStart(y, interval))
            <==> interval >= 60
  {
    hide NameAt, BatchStart;
    if interval >= 60 {
      forall x: nat, y: nat | NameAt(model, currencyCode, x, interval) == NameAt(model, currencyCode, y, interval)
        ensures BatchStart(x, interval) == BatchStart(y, interval)
      {
        WindowsNamedApart(model, currencyCode, x, y, interval);
      }
    } else {
      ShortWindowsCollide(model, currencyCode, interval, 0);
    }
  }

  lemma StartNotNegative(x: nat, interval: nat)
    requires interval > 0
    ensures BatchStart(x, interval) >= 0
  {
    assert BatchStart(0, interval) == 0;
    AllocationDeterministic(0, x, interval);
  }

  /** Windows shorter than a minute: where a window and a minute begin together, the next window begins within that
      minute and shares the name. */
  lemma ShortWindowsCollide(model: string, currencyCode: string, interval: nat, x: nat)
    requires 0 < interval < 60 && '.' !in currencyCode
    requires x % MS_PER_MINUTE == 0 && x % (1000 * interval) == 0
    ensures BatchStart(x, interval) == x && BatchStart(x + 1000 * interval, interval) == x + 1000 * interval
    ensures NameAt(model, currencyCode, x, interval) == NameAt(model, currencyCode, x + 1000 * interval, interval)
  {
    hide BatchName, BatchStart;
    var width := 1000 * interval;
    NextMultiple(x, width);
    StartUnique(x, x, interval);
    StartUnique(x + width, x + width, interval);
    SameMinute(x, width);
    BatchNameInjective(model, currencyCode, x, model, currencyCode, x + width);
  }

  lemma NextMultiple(x: nat, width: nat)
    requires width > 0 && x % width == 0
    ensures (x + width) % width == 0
  {
    assert x + width == (x / width + 1) * width;
    Multiple(x / width + 1, width);
  }

  lemma SameMinute(x: nat, width: nat)
    requires x % MS_PER_MINUTE == 0 && width < MS_PER_MINUTE
    ensures x / MS_PER_MINUTE == (x + width) / MS_PER_MINUTE
  {
  }
}

/**
 * Calendar dates as Python's `datetime.date` holds them (proleptic Gregorian,
 * years 1 to 9999), the single-day step behind `today - timedelta(days=i)`, and
 * `date.isoformat()`.
 */
module Calendar {
  import opened Wrappers
  import opened Decimal

  datatype Ymd = Ymd(year: int, month: int, day: int)

  predicate IsLeap(y: int) {
    y % 4 == 0 && (y % 100 != 0 || y % 400 == 0)
  }

  function DaysInMonth(y: int, m: int): (n: int)
    requires 1 <= m <= 12
    ensures 28 <= n <= 31
    ensures m == 2 ==> (n == 29 <==> IsLeap(y))
  {
    if m == 2 then (if IsLeap(y) then 29 else 28)
    else if m == 4 || m == 6 || m == 9 || m == 11 then 30
    else 31
  }

  predicate ValidDate(d: Ymd) {
    1 <= d.year <= 9999 && 1 <= d.month <= 12 && 1 <= d.day <= DaysInMonth(d.year, d.month)
  }

  /** A value of `datetime.date`: `date.min` is 0001-01-01, `date.max` 9999-12-31. */
  type Date = d: Ymd | ValidDate(d) witness Ymd(1, 1, 1)

  const MinDate: Date := Ymd(1, 1, 1)
  const MaxDate: Date := Ymd(9999, 12, 31)

  /** Chronological order, which on valid dates is the lexicographic order of (year, month, day). */
  predicate Before(a: Ymd, b: Ymd) {
    || a.year < b.year
    || (a.year == b.year && a.month < b.month)
    || (a.year == b.year && a.month == b.month && a.day < b.day)
  }

  lemma BeforeTransitive(a: Ymd, b: Ymd, c: Ymd)
    requires Before(a, b) && Before(b, c)
    ensures Before(a, c)
  {
  }

  /**
   * `d - timedelta(days=1)`: the day before `d`. Below `date.min` Python raises
   * OverflowError, here None.
   */
  function PrevDay(d: Date): (r: Option<Date>)
    ensures r.None? <==> d == MinDate
    ensures r.Some? ==> Before(r.value, d)
  {
    if d.day > 1 then Some(Ymd(d.year, d.month, d.day - 1))
    else if d.month > 1 then Some(Ymd(d.year, d.month - 1, DaysInMonth(d.year, d.month - 1)))
    else if d.year > 1 then Some(Ymd(d.year - 1, 12, 31))
    else None
  }

  /** `d + timedelta(days=1)`: the day after `d`, None above `date.max`. */
  function NextDay(d: Date): (r: Option<Date>)
    ensures r.None? <==> d == MaxDate
    ensures r.Some? ==> Before(d, r.value)
  {
    if d.day < DaysInMonth(d.year, d.month) then Some(Ymd(d.year, d.month, d.day + 1))
    else if d.month < 12 then Some(Ymd(d.year, d.month + 1, 1))
    else if d.year < 9999 then Some(Ymd(d.year + 1, 1, 1))
    else None
  }

  /** Stepping back a day and forward again returns to the same date, so no day is skipped. */
  lemma PrevNextInverse(d: Date, e: Date)
    ensures PrevDay(d) == Some(e) <==> NextDay(e) == Some(d)
  {
  }

  /** The previous day is the one immediately before: no date lies strictly between it and `d`. */
  lemma PrevDayImmediate(d: Date, e: Date)
    requires PrevDay(d).Some? && Before(e, d)
    ensures e == PrevDay(d).value || Before(e, PrevDay(d).value)
  {
  }

  /**
   * `d - timedelta(days=n)`, or None when it falls below `date.min` (where
   * Python raises OverflowError): `d` itself for no days, strictly earlier for
   * any positive number.
   */
  function DaysBefore(d: Date, n: nat): (r: Option<Date>)
    ensures n == 0 ==> r == Some(d)
    ensures n > 0 && r.Some? ==> Before(r.value, d)
  {
    if n == 0 then Some(d)
    else match DaysBefore(d, n - 1)
      case None => None
      case Some(e) => PrevDay(e)
  }

  /** If stepping back `j` days stays in range, so does stepping back any `i <= j` days. */
  lemma {:induction false} DaysBeforeDefined(d: Date, i: nat, j: nat)
    requires i <= j && DaysBefore(d, j).Some?
    ensures DaysBefore(d, i).Some?
  {
    if i < j {
      DaysBeforeDefined(d, i, j - 1);
    }
  }

  /** Once stepping back leaves the range, stepping back further stays out of it. */
  lemma DaysBeforeUndefined(d: Date, i: nat, j: nat)
    requires i <= j && DaysBefore(d, i).None?
    ensures DaysBefore(d, j).None?
  {
    if DaysBefore(d, j).Some? {
      DaysBeforeDefined(d, i, j);
    }
  }

  /** One more day back, when in range, is the day before the previous one. */
  lemma DaysBeforeStep(d: Date, j: nat)
    requires j > 0 && DaysBefore(d, j).Some?
    ensures DaysBefore(d, j - 1).Some?
    ensures Before(DaysBefore(d, j).value, DaysBefore(d, j - 1).value)
  {
    assert PrevDay(DaysBefore(d, j - 1).value) == DaysBefore(d, j);
  }

  /** Stepping back further lands strictly earlier: the dates today, today-1, ... are decreasing. */
  lemma {:induction false} DaysBeforeDecreasing(d: Date, i: nat, j: nat)
    requires i < j && DaysBefore(d, j).Some?
    ensures DaysBefore(d, i).Some?
    ensures Before(DaysBefore(d, j).value, DaysBefore(d, i).value)
  {
    DaysBeforeStep(d, j);
    if i < j - 1 {
      DaysBeforeDecreasing(d, i, j - 1);
      BeforeTransitive(DaysBefore(d, j).value, DaysBefore(d, j - 1).value, DaysBefore(d, i).value);
    }
  }

  /** `date.isoformat()`: "%04d-%02d-%02d". */
  function IsoFormat(d: Date): (s: string)
    ensures |s| == 10 && s[4] == '-' && s[7] == '-'
    ensures AllDigits(s[..4]) && AllDigits(s[5..7]) && AllDigits(s[8..])
  {
    Pad(d.year, 4) + "-" + Pad(d.month, 2) + "-" + Pad(d.day, 2)
  }

  /** Distinct dates have distinct ISO texts. */
  lemma IsoFormatInjective(a: Date, b: Date)
    requires IsoFormat(a) == IsoFormat(b)
    ensures a == b
  {
    assert Pow10(2) == 100 && Pow10(4) == 10000;
    var s, t := IsoFormat(a), IsoFormat(b);
    assert s[..4] == Pad(a.year, 4) && t[..4] == Pad(b.year, 4);
    assert s[5..7] == Pad(a.month, 2) && t[5..7] == Pad(b.month, 2);
    assert s[8..] == Pad(a.day, 2) && t[8..] == Pad(b.day, 2);
    PadValue(a.year, 4);
    PadValue(b.year, 4);
    PadValue(a.month, 2);
    PadValue(b.month, 2);
    PadValue(a.day, 2);
    PadValue(b.day, 2);
  }

  /** The ISO texts of today, today-1, ... today-(n-1) are pairwise distinct. */
  lemma DaysBeforeIsoDistinct(d: Date, i: nat, j: nat)
    requires i != j && DaysBefore(d, i).Some? && DaysBefore(d, j).Some?
    ensures IsoFormat(DaysBefore(d, i).value) != IsoFormat(DaysBefore(d, j).value)
  {
    if i < j {
      DaysBeforeDecreasing(d, i, j);
    } else {
      DaysBeforeDecreasing(d, j, i);
    }
    if IsoFormat(DaysBefore(d, i).value) == IsoFormat(DaysBefore(d, j).value) {
      IsoFormatInjective(DaysBefore(d, i).value, DaysBefore(d, j).value);
    }
  }
}

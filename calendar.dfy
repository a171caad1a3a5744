/** Calendar dates as Python's `datetime` handles them: the proleptic
    Gregorian calendar from 0001-01-01 to 9999-12-31, the day number
    `toordinal()`, one-day steps (`+ timedelta(days=1)`), chronological
    comparison, and the `%m-%d-%Y` text form read by `strptime` and written by
    `strftime`. */
module Calendar {
  import opened Common

  datatype Date = Date(year: int, month: int, day: int)

  const MIN_YEAR: int := 1
  const MAX_YEAR: int := 9999
  const MIN_DATE: Date := Date(MIN_YEAR, 1, 1)
  const MAX_DATE: Date := Date(MAX_YEAR, 12, 31)

  predicate IsLeap(y: int)
  {
    y % 4 == 0 && (y % 100 != 0 || y % 400 == 0)
  }

  function DaysInMonth(y: int, m: int): int
    requires 1 <= m <= 12
  {
    if m == 2 then (if IsLeap(y) then 29 else 28)
    else if m == 4 || m == 6 || m == 9 || m == 11 then 30
    else 31
  }

  function DaysInYear(y: int): int
  {
    if IsLeap(y) then 366 else 365
  }

  predicate Valid(d: Date)
  {
    && MIN_YEAR <= d.year <= MAX_YEAR
    && 1 <= d.month <= 12
    && 1 <= d.day <= DaysInMonth(d.year, d.month)
  }

  /** Days in the years before `y`. */
  function DaysBeforeYear(y: int): int
    requires y >= 1
  {
    var p := y - 1;
    365 * p + p / 4 - p / 100 + p / 400
  }

  /** Days in the months of year `y` before month `m` (`m == 13` gives the
      whole year). */
  function DaysBeforeMonth(y: int, m: int): int
    requires 1 <= m <= 13
  {
    var common :=
      if m == 1 then 0 else if m == 2 then 31 else if m == 3 then 59
      else if m == 4 then 90 else if m == 5 then 120 else if m == 6 then 151
      else if m == 7 then 181 else if m == 8 then 212 else if m == 9 then 243
      else if m == 10 then 273 else if m == 11 then 304 else if m == 12 then 334
      else 365;
    common + (if m > 2 && IsLeap(y) then 1 else 0)
  }

  /** Python's `date.toordinal()`: 0001-01-01 is day 1. */
  function Ordinal(d: Date): int
    requires Valid(d)
  {
    DaysBeforeYear(d.year) + DaysBeforeMonth(d.year, d.month) + d.day
  }

  lemma DaysBeforeMonthStep(y: int, m: int)
    requires 1 <= m <= 12
    ensures DaysBeforeMonth(y, m + 1) == DaysBeforeMonth(y, m) + DaysInMonth(y, m)
    ensures DaysBeforeMonth(y, 13) == DaysInYear(y)
  {
  }

  lemma DaysBeforeMonthMonotone(y: int, m1: int, m2: int)
    requires 1 <= m1 <= m2 <= 13
    ensures DaysBeforeMonth(y, m1) <= DaysBeforeMonth(y, m2)
  {
  }

  lemma DaysBeforeYearStep(y: int)
    requires y >= 1
    ensures DaysBeforeYear(y + 1) == DaysBeforeYear(y) + DaysInYear(y)
  {
    var p := y - 1;
    QuotientStep(p);
    LeapDivisors(y);
  }

  /** From `p` to `p + 1` the quotients by 4, 100 and 400 each rise by one
      exactly when `p + 1` is a multiple of the divisor. */
  lemma QuotientStep(p: int)
    requires p >= 0
    ensures (p + 1) / 4 == p / 4 + (if (p + 1) % 4 == 0 then 1 else 0)
    ensures (p + 1) / 100 == p / 100 + (if (p + 1) % 100 == 0 then 1 else 0)
    ensures (p + 1) / 400 == p / 400 + (if (p + 1) % 400 == 0 then 1 else 0)
  {
  }

  lemma LeapDivisors(y: int)
    ensures y % 400 == 0 ==> y % 100 == 0
    ensures y % 100 == 0 ==> y % 4 == 0
  {
    if y % 400 == 0 {
      var q := y / 400;
      assert y == 100 * (4 * q);
      MultipleOf100(4 * q);
    }
    if y % 100 == 0 {
      var q := y / 100;
      assert y == 4 * (25 * q);
      MultipleOf4(25 * q);
    }
  }

  lemma MultipleOf100(k: int)
    ensures (100 * k) % 100 == 0
  {
  }

  lemma MultipleOf4(k: int)
    ensures (4 * k) % 4 == 0
  {
  }

  lemma {:induction false} DaysBeforeYearMonotone(y1: int, y2: int)
    requires 1 <= y1 <= y2
    ensures DaysBeforeYear(y1) + (y2 - y1) * 365 <= DaysBeforeYear(y2)
    decreases y2 - y1
  {
    if y1 < y2 {
      DaysBeforeYearMonotone(y1, y2 - 1);
      DaysBeforeYearStep(y2 - 1);
    }
  }

  /** The day after `d`, or `None` past 9999-12-31 (Python raises
      `OverflowError` there). */
  function NextDay(d: Date): Option<Date>
    requires Valid(d)
  {
    if d.day < DaysInMonth(d.year, d.month) then Some(Date(d.year, d.month, d.day + 1))
    else if d.month < 12 then Some(Date(d.year, d.month + 1, 1))
    else if d.year < MAX_YEAR then Some(Date(d.year + 1, 1, 1))
    else None
  }

  /** The day before `d`, or `None` before 0001-01-01. */
  function PrevDay(d: Date): Option<Date>
    requires Valid(d)
  {
    if d.day > 1 then Some(Date(d.year, d.month, d.day - 1))
    else if d.month > 1 then Some(Date(d.year, d.month - 1, DaysInMonth(d.year, d.month - 1)))
    else if d.year > MIN_YEAR then Some(Date(d.year - 1, 12, 31))
    else None
  }

  /** One step forward is one day number further, and fails only on the last
      representable date. */
  lemma NextDayOrdinal(d: Date)
    requires Valid(d)
    ensures NextDay(d).None? <==> d == MAX_DATE
    ensures NextDay(d).Some? ==> Valid(NextDay(d).value)
    ensures NextDay(d).Some? ==> Ordinal(NextDay(d).value) == Ordinal(d) + 1
  {
    if d.day == DaysInMonth(d.year, d.month) {
      if d.month < 12 {
        DaysBeforeMonthStep(d.year, d.month);
      } else if d.year < MAX_YEAR {
        DaysBeforeMonthStep(d.year, 12);
        DaysBeforeYearStep(d.year);
      }
    }
  }

  /** `PrevDay` undoes `NextDay`: yesterday's tomorrow is today. */
  lemma PrevDayNextDay(d: Date)
    requires Valid(d)
    ensures PrevDay(d).None? <==> d == MIN_DATE
    ensures PrevDay(d).Some? ==> Valid(PrevDay(d).value) && NextDay(PrevDay(d).value) == Some(d)
  {
  }

  /** Python compares dates field by field: year, then month, then day. */
  predicate LexLe(a: Date, b: Date)
  {
    a.year < b.year || (a.year == b.year && (a.month < b.month || (a.month == b.month && a.day <= b.day)))
  }

  lemma OrdinalYearBounds(d: Date)
    requires Valid(d)
    ensures DaysBeforeYear(d.year) < Ordinal(d) <= DaysBeforeYear(d.year) + DaysInYear(d.year)
  {
    DaysBeforeMonthStep(d.year, d.month);
    DaysBeforeMonthMonotone(d.year, d.month + 1, 13);
  }

  lemma OrdinalStrict(a: Date, b: Date)
    requires Valid(a) && Valid(b) && LexLe(a, b) && a != b
    ensures Ordinal(a) < Ordinal(b)
  {
    if a.year < b.year {
      OrdinalYearBounds(a);
      OrdinalYearBounds(b);
      DaysBeforeYearStep(a.year);
      DaysBeforeYearMonotone(a.year + 1, b.year);
    } else if a.month < b.month {
      DaysBeforeMonthStep(a.year, a.month);
      DaysBeforeMonthMonotone(a.year, a.month + 1, b.month);
    }
  }

  /** Chronological order is day-number order, and the day number identifies
      the date. */
  lemma OrdinalOrder(a: Date, b: Date)
    requires Valid(a) && Valid(b)
    ensures LexLe(a, b) <==> Ordinal(a) <= Ordinal(b)
    ensures a == b <==> Ordinal(a) == Ordinal(b)
  {
    if a != b {
      if LexLe(a, b) {
        OrdinalStrict(a, b);
      } else {
        OrdinalStrict(b, a);
      }
    }
  }

  /** `n` consecutive days starting at `d`: Python's
      `[d + timedelta(days=i) for i in range(n)]`. */
  function DaysFrom(d: Date, n: nat): (r: seq<Date>)
    requires Valid(d)
    requires n == 0 || Ordinal(d) + n - 1 <= Ordinal(MAX_DATE)
    ensures |r| == n
    ensures n > 0 ==> r[0] == d
    decreases n
  {
    if n <= 1 then (if n == 0 then [] else [d])
    else
      NextDayOrdinal(d);
      [d] + DaysFrom(NextDay(d).value, n - 1)
  }

  /** Every element of `DaysFrom(d, n)` is a valid date whose day number is
      `k` days after `d`'s, and each is the day after the one before it. */
  lemma {:induction false} DaysFromSpec(d: Date, n: nat)
    requires Valid(d)
    requires n == 0 || Ordinal(d) + n - 1 <= Ordinal(MAX_DATE)
    ensures forall k :: 0 <= k < n ==> Valid(DaysFrom(d, n)[k]) && Ordinal(DaysFrom(d, n)[k]) == Ordinal(d) + k
    ensures forall k :: 0 <= k < n - 1 ==> NextDay(DaysFrom(d, n)[k]) == Some(DaysFrom(d, n)[k + 1])
    decreases n
  {
    if n > 1 {
      NextDayOrdinal(d);
      var e := NextDay(d).value;
      DaysFromSpec(e, n - 1);
      var r := DaysFrom(d, n);
      assert r == [d] + DaysFrom(e, n - 1);
      forall k | 0 <= k < n ensures Valid(r[k]) && Ordinal(r[k]) == Ordinal(d) + k {
        if k > 0 {
          assert r[k] == DaysFrom(e, n - 1)[k - 1];
        }
      }
      forall k | 0 <= k < n - 1 ensures NextDay(r[k]) == Some(r[k + 1]) {
        if k > 0 {
          assert r[k] == DaysFrom(e, n - 1)[k - 1];
        }
      }
    }
  }

  /** The last of `n` days from `s` is the date whose day number is `n - 1`
      further on. */
  lemma DaysFromLast(s: Date, n: nat, e: Date)
    requires Valid(s) && Valid(e) && n >= 1
    requires Ordinal(e) == Ordinal(s) + n - 1
    ensures DaysFrom(s, n)[n - 1] == e
  {
    DaysFromSpec(s, n);
    OrdinalOrder(DaysFrom(s, n)[n - 1], e);
  }

  /** The days from `s` to `e` inclusive, when `s` is not after `e`: the list
      of one entry per day (`DaysFromSpec`) starts at `s` and ends at `e`. */
  lemma DaysBetween(s: Date, e: Date)
    requires Valid(s) && Valid(e) && LexLe(s, e)
    ensures Ordinal(s) <= Ordinal(e) <= Ordinal(MAX_DATE)
    ensures var r := DaysFrom(s, Ordinal(e) - Ordinal(s) + 1);
      r[0] == s && r[|r| - 1] == e
  {
    OrdinalOrder(s, e);
    OrdinalOrder(e, MAX_DATE);
    var n := Ordinal(e) - Ordinal(s) + 1;
    DaysFromLast(s, n, e);
  }

  // ---------------------------------------------------------------------
  // The `%m-%d-%Y` text form

  function Pad2(n: int): (r: string)
    requires 0 <= n < 100
    ensures |r| == 2 && AllDigits(r)
  {
    [DigitChar(n / 10), DigitChar(n % 10)]
  }

  function Pad4(n: int): (r: string)
    requires 0 <= n < 10000
    ensures |r| == 4 && AllDigits(r)
  {
    Pad2(n / 100) + Pad2(n % 100)
  }

  /** `strftime("%m-%d-%Y")`: always zero-padded. */
  function Format(d: Date): (r: string)
    requires Valid(d)
    ensures IsPaddedMDY(r)
  {
    var r := Pad2(d.month) + "-" + Pad2(d.day) + "-" + Pad4(d.year);
    assert r[..2] == Pad2(d.month) && r[3..5] == Pad2(d.day) && r[6..] == Pad4(d.year);
    r
  }

  /** Every formatted date is zero-padded: two digits, a dash, two digits, a
      dash, four digits. */
  predicate IsPaddedMDY(s: string)
  {
    && |s| == 10 && s[2] == '-' && s[5] == '-'
    && AllDigits(s[..2]) && AllDigits(s[3..5]) && AllDigits(s[6..])
  }

  predicate MonthToken(t: string)
  {
    1 <= |t| <= 2 && AllDigits(t) && 1 <= DigitsValue(t) <= 12
  }

  predicate DayToken(t: string)
  {
    || (1 <= |t| <= 2 && AllDigits(t) && 1 <= DigitsValue(t) <= 31)
    || (|t| == 2 && t[0] == ' ' && '1' <= t[1] <= '9')
  }

  function DayTokenValue(t: string): int
    requires DayToken(t)
  {
    if t[0] == ' ' then t[1] as int - '0' as int else DigitsValue(t)
  }

  predicate YearToken(t: string)
  {
    |t| == 4 && AllDigits(t)
  }

  /** `datetime.strptime(s, "%m-%d-%Y")`: a month of one or two digits, a day
      of one or two digits (or a space and a digit), a four-digit year, and the
      date must exist; `None` where Python raises `ValueError`. */
  function ParseDate(s: string): (r: Option<Date>)
    ensures r.Some? ==> Valid(r.value)
  {
    match IndexOf(s, "-")
    case None => None
    case Some(i) =>
      var rest := s[i + 1..];
      match IndexOf(rest, "-")
      case None => None
      case Some(j) =>
        var m, dd, y := s[..i], rest[..j], rest[j + 1..];
        if MonthToken(m) && DayToken(dd) && YearToken(y) then
          var d := Date(DigitsValue(y), DigitsValue(m), DayTokenValue(dd));
          if Valid(d) then Some(d) else None
        else None
  }

  lemma IndexOfChar(s: string, c: char, i: nat)
    requires i < |s| && s[i] == c
    requires forall j :: 0 <= j < i ==> s[j] != c
    ensures IndexOf(s, [c]) == Some(i)
  {
    forall j | 0 <= j < i ensures !OccursAt(s, [c], j) {
      assert s[j..j + 1][0] == s[j];
    }
    assert s[i..i + 1] == [c];
    IndexFromFirst(s, [c], 0, i);
  }

  lemma DigitsValueSnoc(s: string, c: char)
    requires AllDigits(s) && IsDigit(c)
    ensures DigitsValue(s + [c]) == DigitsValue(s) * 10 + (c as int - '0' as int)
  {
    assert (s + [c])[..|s|] == s;
  }

  lemma Pad2Value(n: int)
    requires 0 <= n < 100
    ensures DigitsValue(Pad2(n)) == n
  {
    var p := Pad2(n);
    assert DigitsValue(p[..1]) == p[0] as int - '0' as int by {
      assert p[..1][..0] == [];
    }
  }

  lemma Pad4Value(n: int)
    requires 0 <= n < 10000
    ensures DigitsValue(Pad4(n)) == n
  {
    var hi, lo := Pad2(n / 100), Pad2(n % 100);
    Pad2Value(n / 100);
    assert Pad4(n) == (hi + [lo[0]]) + [lo[1]];
    DigitsValueSnoc(hi, lo[0]);
    DigitsValueSnoc(hi + [lo[0]], lo[1]);
  }

  /** Reading back a formatted date gives the date: `strptime(strftime(d))`
      is `d`. */
  lemma FormatParseRoundTrip(d: Date)
    requires Valid(d)
    ensures ParseDate(Format(d)) == Some(d)
  {
    var s := Format(d);
    IndexOfChar(s, '-', 2);
    var rest := s[3..];
    assert rest == Pad2(d.day) + "-" + Pad4(d.year);
    IndexOfChar(rest, '-', 2);
    assert s[..2] == Pad2(d.month);
    assert rest[..2] == Pad2(d.day);
    assert rest[3..] == Pad4(d.year);
    Pad2Value(d.month);
    Pad2Value(d.day);
    Pad4Value(d.year);
  }

  /** A formatted date names its date uniquely. */
  lemma FormatInjective(a: Date, b: Date)
    requires Valid(a) && Valid(b) && Format(a) == Format(b)
    ensures a == b
  {
    FormatParseRoundTrip(a);
    FormatParseRoundTrip(b);
  }
}

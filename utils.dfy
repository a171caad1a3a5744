/** Date-range and path helpers (`src/pipeline/utils.py`): the inclusive
    day-by-day enumeration of `MM-DD-YYYY` dates, the existence-check stub
    and the per-run log file name. */
module Utils {
  import opened Common
  import opened Calendar
  import opened Points

  // ---------------------------------------------------------------------
  // daterange

  /** Everything `daterange` yields, and whether it then stops with
      `OverflowError` (stepping past 9999-12-31 after yielding it). */
  datatype Yield = Yield(dates: seq<string>, overflow: bool)

  /** `strptime` rejected one of the two arguments (`ValueError`, raised
      before anything is yielded). */
  datatype DateError = BadDate

  function FormatAll(ds: seq<Date>): (r: seq<string>)
    requires forall i :: 0 <= i < |ds| ==> Valid(ds[i])
    ensures |r| == |ds| && forall i :: 0 <= i < |ds| ==> r[i] == Format(ds[i])
  {
    if ds == [] then [] else FormatAll(ds[..|ds| - 1]) + [Format(ds[|ds| - 1])]
  }

  /** How many days `start..end` covers: none when `start` is after `end`. */
  function DayCount(s: Date, e: Date): (n: nat)
    requires Valid(s) && Valid(e)
    ensures n == 0 || Ordinal(s) + n - 1 <= Ordinal(MAX_DATE)
  {
    OrdinalOrder(e, MAX_DATE);
    if LexLe(s, e) then (OrdinalOrder(s, e); Ordinal(e) - Ordinal(s) + 1) else 0
  }

  /** The formatted days from `s` to `e` inclusive. */
  function RangeDates(s: Date, e: Date): seq<string>
    requires Valid(s) && Valid(e)
  {
    var n := DayCount(s, e);
    DaysFromSpec(s, n);
    FormatAll(DaysFrom(s, n))
  }

  /** What `daterange(start_date, end_date)` produces: the formatted days
      from start to end inclusive. */
  function DateRangeSpec(startText: string, endText: string): (r: Result<Yield, DateError>)
    ensures r.Ok? <==> ParseDate(startText).Some? && ParseDate(endText).Some?
  {
    match (ParseDate(startText), ParseDate(endText))
    case (Some(s), Some(e)) =>
      Ok(Yield(RangeDates(s, e), DayCount(s, e) > 0 && e == MAX_DATE))
    case _ => Err(BadDate)
  }

  /** `daterange`: the two dates are parsed first, then the generator's
      loop runs. */
  method DateRange(startText: string, endText: string) returns (r: Result<Yield, DateError>)
    ensures r == DateRangeSpec(startText, endText)
  {
    var ps, pe := ParseDate(startText), ParseDate(endText);
    if ps.None? || pe.None? {
      return Err(BadDate);
    }
    var dates, overflow := DaysUntil(ps.value, pe.value);
    r := Ok(Yield(dates, overflow));
  }

  /** The date at position `k` of the range is the day `k` days after
      `s`. */
  lemma RangeDatesAt(s: Date, e: Date, k: nat, d: Date)
    requires Valid(s) && Valid(e) && Valid(d) && k < DayCount(s, e)
    requires Ordinal(d) == Ordinal(s) + k
    ensures |RangeDates(s, e)| == DayCount(s, e) && RangeDates(s, e)[k] == Format(d)
  {
    var n := DayCount(s, e);
    DaysFromSpec(s, n);
    OrdinalOrder(DaysFrom(s, n)[k], d);
  }

  /** The loop's test `start <= end`, on day numbers. */
  lemma LoopTest(s: Date, e: Date, cur: Date, k: nat)
    requires Valid(s) && Valid(e) && Valid(cur) && Ordinal(cur) == Ordinal(s) + k
    requires k <= DayCount(s, e) && (k == 0 ==> cur == s)
    ensures LexLe(cur, e) <==> k < DayCount(s, e)
  {
    OrdinalOrder(cur, e);
    OrdinalOrder(s, e);
  }

  /** One iteration of the loop at the `k`-th day `cur`: it yields the
      range's `k`-th entry, and the next day either exists and is the
      `k + 1`-th, or `cur` was the last representable day and the last of
      the range. */
  lemma Advance(s: Date, e: Date, cur: Date, k: nat)
    requires Valid(s) && Valid(e) && Valid(cur) && Ordinal(cur) == Ordinal(s) + k
    requires k < DayCount(s, e)
    ensures RangeDates(s, e)[k] == Format(cur) && |RangeDates(s, e)| == DayCount(s, e)
    ensures NextDay(cur).None? ==> k + 1 == DayCount(s, e) && e == MAX_DATE
    ensures NextDay(cur).Some? ==> && Valid(NextDay(cur).value)
                                   && Ordinal(NextDay(cur).value) == Ordinal(s) + k + 1
                                   && (LexLe(NextDay(cur).value, e) <==> k + 1 < DayCount(s, e))
  {
    RangeDatesAt(s, e, k, cur);
    NextDayOrdinal(cur);
    OrdinalOrder(s, e);
    OrdinalOrder(e, MAX_DATE);
    OrdinalOrder(cur, MAX_DATE);
    if NextDay(cur).Some? {
      OrdinalOrder(NextDay(cur).value, e);
    }
  }

  lemma SliceSnoc<T>(a: seq<T>, k: nat)
    requires k < |a|
    ensures a[..k + 1] == a[..k] + [a[k]]
  {
  }

  /** The loop of `daterange` over parsed dates: yield the current day and
      step one day forward while the current day is not after `e`. */
  method DaysUntil(s: Date, e: Date) returns (out: seq<string>, overflow: bool)
    requires Valid(s) && Valid(e)
    ensures out == RangeDates(s, e) && overflow == (DayCount(s, e) > 0 && e == MAX_DATE)
  {
    ghost var n := DayCount(s, e);
    ghost var all := RangeDates(s, e);
    var cur := s;
    out := [];
    LoopTest(s, e, cur, 0);
    while LexLe(cur, e)
      invariant Valid(cur) && Ordinal(cur) == Ordinal(s) + |out|
      invariant |out| <= n && out == all[..|out|]
      invariant LexLe(cur, e) <==> |out| < n
      decreases n - |out|
    {
      Advance(s, e, cur, |out|);
      SliceSnoc(all, |out|);
      out := out + [Format(cur)];
      var next := NextDay(cur);
      if next.None? {
        assert out == all;
        return out, true;
      }
      cur := next.value;
    }
    assert out == all;
    EndNotLast(s, e, cur, n);
    overflow := false;
  }

  /** When the loop ends by its test, the end date was not the last
      representable one (the day after it exists). */
  lemma EndNotLast(s: Date, e: Date, cur: Date, n: nat)
    requires Valid(s) && Valid(e) && Valid(cur) && n == DayCount(s, e)
    requires Ordinal(cur) == Ordinal(s) + n && !LexLe(cur, e)
    ensures !(n > 0 && e == MAX_DATE)
  {
    if n > 0 {
      OrdinalOrder(s, e);
      OrdinalOrder(cur, MAX_DATE);
    }
  }

  /** With `start` after `end` nothing is yielded; otherwise there are
      (end − start) + 1 dates, the first is `start` and the last is `end`. */
  lemma DateRangeEnds(startText: string, endText: string, s: Date, e: Date)
    requires ParseDate(startText) == Some(s) && ParseDate(endText) == Some(e)
    requires Valid(s) && Valid(e)
    ensures DateRangeSpec(startText, endText).Ok?
    ensures var ds := DateRangeSpec(startText, endText).value.dates;
      && (ds == [] <==> !LexLe(s, e))
      && (LexLe(s, e) ==> |ds| == Ordinal(e) - Ordinal(s) + 1 && ds[0] == Format(s) && ds[|ds| - 1] == Format(e))
  {
    assert DateRangeSpec(startText, endText) == Ok(Yield(RangeDates(s, e), DayCount(s, e) > 0 && e == MAX_DATE));
    RangeDatesEnds(s, e);
  }

  lemma RangeDatesEnds(s: Date, e: Date)
    requires Valid(s) && Valid(e)
    ensures var ds := RangeDates(s, e);
      && (ds == [] <==> !LexLe(s, e))
      && (LexLe(s, e) ==> |ds| == Ordinal(e) - Ordinal(s) + 1 && ds[0] == Format(s) && ds[|ds| - 1] == Format(e))
  {
    if LexLe(s, e) {
      DaysBetween(s, e);
    }
  }

  /** Two date texts naming consecutive days. */
  predicate Consecutive(a: string, b: string)
  {
    ParseDate(a).Some? && ParseDate(b).Some? && NextDay(ParseDate(a).value) == ParseDate(b)
  }

  /** Every yielded date is zero-padded `MM-DD-YYYY`, and each is the day
      after the one before it. */
  lemma DateRangeSteps(startText: string, endText: string, s: Date, e: Date)
    requires ParseDate(startText) == Some(s) && ParseDate(endText) == Some(e)
    requires Valid(s) && Valid(e)
    ensures DateRangeSpec(startText, endText).Ok?
    ensures var ds := DateRangeSpec(startText, endText).value.dates;
      && (forall i :: 0 <= i < |ds| ==> IsPaddedMDY(ds[i]))
      && (forall i :: 0 <= i < |ds| - 1 ==> Consecutive(ds[i], ds[i + 1]))
  {
    var n := DayCount(s, e);
    DaysFromSpec(s, n);
    var days := DaysFrom(s, n);
    var ds := FormatAll(days);
    assert DateRangeSpec(startText, endText).value.dates == ds;
    forall i | 0 <= i < |ds|
      ensures IsPaddedMDY(ds[i]) && ParseDate(ds[i]) == Some(days[i])
    {
      assert ds[i] == Format(days[i]);
      FormatParseRoundTrip(days[i]);
    }
    forall i | 0 <= i < |ds| - 1
      ensures Consecutive(ds[i], ds[i + 1])
    {
      assert NextDay(days[i]) == Some(days[i + 1]);
    }
  }

  // ---------------------------------------------------------------------
  // check_existing_data

  /** `check_existing_data(cleaned_data)`: the stub answers "not present"
      for every input, so every record is always written. */
  function CheckExistingData(cleaned: seq<Record>): (present: bool)
    ensures !present
  {
    false
  }

  // ---------------------------------------------------------------------
  // The log file path of setup_run_logging_yaml

  /** How an f-string prints an optional text value. */
  function Show(o: Option<string>): string
  {
    if o.Some? then o.value else "None"
  }

  function ShowInt(o: Option<int>): string
  {
    if o.Some? then IntToString(o.value) else "None"
  }

  /** `os.path.join(log_dir, f"{mode}_{date_str}_{…}_{pid}.log")`: the
      third part is the time in live mode and the range otherwise. */
  function LogPath(logDir: string, mode: Option<string>, date: string, time: Option<string>,
                   range: Option<string>, pid: Option<int>): (r: string)
    ensures EndsWith(r, ".log")
    ensures Show(mode) == [] || Show(mode)[0] != '/' ==> StartsWith(r, logDir)
  {
    var third := if mode == Some("live") then Show(time) else Show(range);
    var name := Show(mode) + "_" + date + "_" + third + "_" + ShowInt(pid) + ".log";
    assert EndsWith(name, ".log") by {
      assert name[|name| - 4..] == ".log";
    }
    PathJoin(logDir, name)
  }
}

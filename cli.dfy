/** The command-line entry point (`src/main.py`): flag parsing, the
    same-day collapse of a start/end pair, the choice between live, range
    and daily runs, the (date, range) unit schedule of range and daily
    runs, the variable file, the default date, and the live run.

    The clock is an input: `today` is the current UTC date, and the run
    times and elapsed seconds are parameters.  The namespace `vars(args)`
    serialises to is the opaque text `parameters`. */
module Cli {
  import opened Common
  import opened Calendar
  import opened Batches
  import opened Utils
  import opened DataCleaner
  import opened InfluxWriter
  import opened RunTracker
  import opened ApiClient

  // ---------------------------------------------------------------------
  // Flags

  /** The `type=` of every boolean option: `x.lower() in ("true", "1",
      "yes")`. */
  function ParseFlag(text: string): (b: bool)
    ensures b ==> |text| == 1 || |text| == 3 || |text| == 4
  {
    Lower(text) in {"true", "1", "yes"}
  }

  /** The flag parser ignores letter case, and only the three words count
      as true. */
  lemma ParseFlagCases()
    ensures ParseFlag("TRUE") && ParseFlag("Yes") && ParseFlag("1") && ParseFlag("true")
    ensures !ParseFlag("false") && !ParseFlag("0") && !ParseFlag("no") && !ParseFlag("")
  {
    LowerIs("TRUE", "true");
    LowerIs("Yes", "yes");
    LowerIs("1", "1");
    LowerIs("true", "true");
    LowerIs("0", "0");
  }

  lemma LowerIs(s: string, t: string)
    requires |s| == |t| && forall i :: 0 <= i < |s| ==> LowerChar(s[i]) == t[i]
    ensures Lower(s) == t
  {
  }

  /** Lower-casing the text first changes nothing. */
  lemma ParseFlagCaseless(text: string)
    ensures ParseFlag(Lower(text)) == ParseFlag(text)
  {
    LowerIdempotent(text);
  }

  /** Python truthiness of an optional text option: neither `None` nor
      empty. */
  predicate Truthy(o: Option<string>)
  {
    o.Some? && o.value != ""
  }

  // ---------------------------------------------------------------------
  // The namespace

  /** The dates after the start = end collapse: a non-empty start equal to
      the end becomes the single date, and start and end are cleared. */
  function Collapsed(date: Option<string>, start: Option<string>, end: Option<string>)
    : (r: (Option<string>, Option<string>, Option<string>))
    ensures !(r.1 == r.2 && Truthy(r.1))
    ensures Truthy(r.1) ==> r == (date, start, end)
  {
    if start == end && Truthy(start) then (start, None, None) else (date, start, end)
  }

  /** The collapse is the only change a same-day pair undergoes, and a
      second collapse changes nothing. */
  lemma CollapsedSpec(date: Option<string>, start: Option<string>, end: Option<string>)
    ensures var (d, s, e) := Collapsed(date, start, end);
      && (start == end && Truthy(start) ==> d == start && s.None? && e.None?)
      && (!(start == end && Truthy(start)) ==> (d, s, e) == (date, start, end))
      && Collapsed(d, s, e) == (d, s, e)
  {
  }

  /** `vars(args)`: the options the model follows, and the text of those
      it never reads or changes (`--debug`, `--delay`, `--use-db-params`,
      `--db-host`, `--db-org`). */
  datatype Options = Options(
    mode: Option<string>, date: Option<string>, startdate: Option<string>, enddate: Option<string>,
    range: Option<string>, dbWrite: bool, override: bool, retainFile: bool, logRun: bool,
    variableFile: Option<string>, others: string)

  /** The parsed command line.  `dumps` is `json.dumps` on the namespace;
      it is applied whenever a row is logged, so a row records the options
      as they are at that moment, after `main` has changed them. */
  class Args {
    var mode: Option<string>
    var date: Option<string>
    var startdate: Option<string>
    var enddate: Option<string>
    var range: Option<string>
    var dbWrite: bool
    var override: bool
    var retainFile: bool
    var logRun: bool
    var variableFile: Option<string>
    var others: string
    const dumps: Options -> string

    constructor (ns: Options, dumps: Options -> string)
      ensures Current() == ns && this.dumps == dumps
    {
      mode := ns.mode;
      date := ns.date;
      startdate := ns.startdate;
      enddate := ns.enddate;
      range := ns.range;
      dbWrite := ns.dbWrite;
      override := ns.override;
      retainFile := ns.retainFile;
      logRun := ns.logRun;
      variableFile := ns.variableFile;
      others := ns.others;
      this.dumps := dumps;
    }

    /** The namespace as it is now. */
    function Current(): Options
      reads this
    {
      Options(mode, date, startdate, enddate, range, dbWrite, override, retainFile, logRun, variableFile, others)
    }

    /** What `process_datewise` and `process_and_write` read, with the
        `parameters` text serialised from the namespace as it is now. */
    function Snapshot(): RunArgs
      reads this
    {
      RunArgs(mode, WriteFlags(dbWrite, override, retainFile), dumps(Current()))
    }

    /** `if not args.date: args.date = <yesterday>`, where computing
        yesterday raises (`yesterday == None`) and leaves the date as it
        was. */
    method FillDate(yesterday: Option<string>)
      modifies this
      ensures date == if Truthy(old(date)) || yesterday.None? then old(date) else yesterday
      ensures Current() == old(Current()).(date := date)
    {
      if !Truthy(date) && yesterday.Some? {
        date := yesterday;
      }
    }

    /** `if (args.startdate == args.enddate) and args.startdate:` … */
    method CollapseSameDay()
      modifies this
      ensures (date, startdate, enddate) == Collapsed(old(date), old(startdate), old(enddate))
      ensures Current() == old(Current()).(date := date, startdate := startdate, enddate := enddate)
    {
      if startdate == enddate && Truthy(startdate) {
        date := startdate;
        startdate := None;
        enddate := None;
      }
    }
  }

  // ---------------------------------------------------------------------
  // Which run

  datatype Branch = LiveRun | RangeRun | DailyRun

  /** `if args.mode == "live": … elif args.startdate and args.enddate: …
      else: …`. */
  function BranchOf(mode: Option<string>, start: Option<string>, end: Option<string>): (b: Branch)
    ensures b == LiveRun <==> mode == Some(LIVE)
  {
    if mode == Some(LIVE) then LiveRun
    else if Truthy(start) && Truthy(end) then RangeRun
    else DailyRun
  }

  /** A start equal to the end never makes a range run: after the collapse
      such a command line is a daily run of that date. */
  lemma SameDayIsDaily(mode: Option<string>, date: Option<string>, day: string)
    requires day != "" && mode != Some(LIVE)
    ensures var (d, s, e) := Collapsed(date, Some(day), Some(day));
      BranchOf(mode, s, e) == DailyRun && d == Some(day)
  {
  }

  // ---------------------------------------------------------------------
  // The "today" test (see Findings)

  /** The two kinds of time value the test compares: a `date`, and a
      `datetime` with its time of day in seconds. */
  datatype Moment = DateValue(d: Date) | DateTimeValue(d: Date, seconds: int)

  /** Python's `==` between the two: a `datetime` never equals a `date`. */
  predicate PyEquals(a: Moment, b: Moment)
  {
    match (a, b)
    case (DateValue(x), DateValue(y)) => x == y
    case (DateTimeValue(x, s), DateTimeValue(y, t)) => x == y && s == t
    case _ => false
  }

  /** The test as written: `dt == datetime.now(utc).date()`, where `dt`
      is the midnight `datetime` that `strptime` (or adding days to it)
      produces. */
  predicate IsTodayAsWritten(dt: Date, today: Date)
  {
    PyEquals(DateTimeValue(dt, 0), DateValue(today))
  }

  /** The test never holds, not even on today's date, so a run for today
      is still logged. */
  lemma TodayTestNeverHolds(today: Date)
    ensures !IsTodayAsWritten(today, today)
    ensures forall dt :: !IsTodayAsWritten(dt, today)
  {
  }

  // ---------------------------------------------------------------------
  // The unit schedule

  /** One call of `process_datewise`: the date, the range and whether the
      run is logged.  Its log file is `UnitLogPath` of the date and range. */
  datatype Unit = Unit(date: Date, range: int, logRun: bool)

  const LOG_DIR: string := "logs"

  /** `setup_run_logging_yaml(dt.strftime(DATE_FORMAT_FILENAME),
      range_param=str(i), mode=args.mode, pid=os.getpid())`. */
  function UnitLogPath(fmt: DateFormats, d: Date, range: int, mode: Option<string>, pid: int): (r: string)
    ensures EndsWith(r, ".log")
    ensures Show(mode) == [] || Show(mode)[0] != '/' ==> StartsWith(r, LOG_DIR)
  {
    LogPath(LOG_DIR, mode, fmt.file(d), None, Some(IntToString(range)), Some(pid))
  }

  /** The two units of one date, range 1 then range 2. */
  function UnitsOf(d: Date, flag: bool): seq<Unit>
  {
    [Unit(d, 1, flag), Unit(d, 2, flag)]
  }

  /** The units of a run over `dates` under a "today" test `isToday`:
      logging is switched off at the first date the test holds for, and
      stays off for every later date. */
  function ScheduleWith(dates: seq<Date>, logRun: bool, today: Date, isToday: (Date, Date) -> bool)
    : (s: seq<Unit>)
    ensures |s| == 2 * |dates|
  {
    if dates == [] then []
    else
      ScheduleWith(dates[..|dates| - 1], logRun, today, isToday)
        + UnitsOf(dates[|dates| - 1], logRun && !TodaySeenBy(dates, today, isToday))
  }

  /** Whether the "today" test held for some date of `dates`. */
  predicate TodaySeenBy(dates: seq<Date>, today: Date, isToday: (Date, Date) -> bool)
  {
    exists j :: 0 <= j < |dates| && isToday(dates[j], today)
  }

  /** The corrected test: the date is today's. */
  predicate SameDate(dt: Date, today: Date)
  {
    dt == today
  }

  /** The corrected units: logging is switched off at today's date. */
  function Schedule(dates: seq<Date>, logRun: bool, today: Date)
    : (s: seq<Unit>)
    ensures |s| == 2 * |dates|
  {
    ScheduleWith(dates, logRun, today, SameDate)
  }

  /** Under the corrected test, today is seen exactly when it is one of
      the dates. */
  lemma SeenBySameDate(dates: seq<Date>, today: Date)
    ensures TodaySeenBy(dates, today, SameDate) <==> today in dates
  {
    if today in dates {
      var j :| 0 <= j < |dates| && dates[j] == today;
      assert SameDate(dates[j], today);
    }
  }

  /** Two units per date, in date order, range 1 before range 2; a date's
      units are logged exactly when logging was asked for and neither it
      nor an earlier date is today. */
  lemma ScheduleShape(dates: seq<Date>, logRun: bool, today: Date)
    ensures var s := Schedule(dates, logRun, today);
      && |s| == 2 * |dates|
      && forall k :: 0 <= k < |dates| ==>
           && s[2 * k] == Unit(dates[k], 1, logRun && today !in dates[..k + 1])
           && s[2 * k + 1] == Unit(dates[k], 2, logRun && today !in dates[..k + 1])
  {
    forall k | 0 <= k < |dates| {
      ScheduleAt(dates, logRun, today, k);
    }
  }

  /** The two units of `dates[k]` in the schedule. */
  lemma ScheduleAt(dates: seq<Date>, logRun: bool, today: Date, k: nat)
    requires k < |dates|
    ensures var s := Schedule(dates, logRun, today);
      && s[2 * k] == Unit(dates[k], 1, logRun && today !in dates[..k + 1])
      && s[2 * k + 1] == Unit(dates[k], 2, logRun && today !in dates[..k + 1])
  {
    ScheduleSnoc(dates, k, logRun, today);
    PrefixOfSchedule(dates, k + 1, logRun, today);
    PairAt(Schedule(dates[..k], logRun, today),
           UnitsOf(dates[k], logRun && today !in dates[..k + 1]),
           Schedule(dates, logRun, today));
  }

  /** The pair that follows a prefix `q` sits at positions `|q|` and `|q| + 1`. */
  lemma PairAt(q: seq<Unit>, pair: seq<Unit>, s: seq<Unit>)
    requires |pair| == 2 && q + pair <= s
    ensures s[|q|] == pair[0] && s[|q| + 1] == pair[1]
  {
    assert (q + pair)[|q|] == pair[0] && (q + pair)[|q| + 1] == pair[1];
  }

  /** Today's units are never logged, nor are those of any later date in
      the run. */
  lemma TodayNotLogged(dates: seq<Date>, logRun: bool, today: Date, k: nat, k': nat)
    requires k <= k' < |dates| && dates[k] == today
    ensures var s := Schedule(dates, logRun, today);
      !s[2 * k'].logRun && !s[2 * k' + 1].logRun
  {
    ScheduleAt(dates, logRun, today, k');
    assert dates[..k' + 1][k] == today;
  }

  /** A run that does not reach today logs every unit when asked to. */
  lemma BeforeTodayLogged(dates: seq<Date>, today: Date)
    requires today !in dates
    ensures forall u :: u in Schedule(dates, true, today) ==> u.logRun
  {
    AsWrittenAgreesBeforeToday(dates, true, today);
    AsWrittenKeepsFlag(dates, true, today);
    var s := ScheduleAsWritten(dates, true, today);
    forall u | u in s ensures u.logRun {
      var i :| 0 <= i < |s| && s[i] == u;
    }
  }

  /** The units as the code schedules them, under the test as written. */
  function ScheduleAsWritten(dates: seq<Date>, logRun: bool, today: Date)
    : (s: seq<Unit>)
    ensures |s| == 2 * |dates|
  {
    ScheduleWith(dates, logRun, today, IsTodayAsWritten)
  }

  /** Since the test as written never holds (`TodayTestNeverHolds`), unit
      `i` is range `i % 2 + 1` of date `i / 2`, and every unit keeps the
      requested flag. */
  lemma {:induction false} AsWrittenKeepsFlag(dates: seq<Date>, logRun: bool, today: Date)
    ensures var s := ScheduleAsWritten(dates, logRun, today);
      forall i :: 0 <= i < 2 * |dates| ==> s[i] == Unit(dates[i / 2], i % 2 + 1, logRun)
    decreases |dates|
  {
    if dates != [] {
      var n := |dates| - 1;
      var init := dates[..n];
      AsWrittenKeepsFlag(init, logRun, today);
      TodayTestNeverHolds(today);
      assert !TodaySeenBy(dates, today, IsTodayAsWritten);
      var s := ScheduleAsWritten(dates, logRun, today);
      var t := ScheduleAsWritten(init, logRun, today);
      assert s == t + UnitsOf(dates[n], logRun);
      forall i | 0 <= i < 2 * |dates|
        ensures s[i] == Unit(dates[i / 2], i % 2 + 1, logRun)
      {
        if i < 2 * n {
          assert s[i] == t[i] && init[i / 2] == dates[i / 2];
        } else {
          assert i / 2 == n;
        }
      }
    }
  }

  /** A logged run over a span that includes today: as written, today's
      units are logged; corrected, they are not. */
  lemma AsWrittenLogsToday(dates: seq<Date>, today: Date, k: nat)
    requires k < |dates| && dates[k] == today
    ensures ScheduleAsWritten(dates, true, today)[2 * k].logRun
    ensures ScheduleAsWritten(dates, true, today)[2 * k + 1].logRun
    ensures !Schedule(dates, true, today)[2 * k].logRun
    ensures !Schedule(dates, true, today)[2 * k + 1].logRun
  {
    AsWrittenKeepsFlag(dates, true, today);
    TodayNotLogged(dates, true, today, k, k);
  }

  /** Away from today the two schedules agree. */
  lemma AsWrittenAgreesBeforeToday(dates: seq<Date>, logRun: bool, today: Date)
    requires today !in dates
    ensures ScheduleAsWritten(dates, logRun, today) == Schedule(dates, logRun, today)
  {
    AsWrittenKeepsFlag(dates, logRun, today);
    var s := ScheduleAsWritten(dates, logRun, today);
    var t := Schedule(dates, logRun, today);
    forall k | 0 <= k < |dates|
      ensures s[2 * k] == t[2 * k] && s[2 * k + 1] == t[2 * k + 1]
    {
      ScheduleAt(dates, logRun, today, k);
      assert today !in dates[..k + 1] by {
        assert forall x :: x in dates[..k + 1] ==> x in dates;
      }
      assert (2 * k) / 2 == k && (2 * k + 1) / 2 == k;
    }
    EqualByPairs(s, t, |dates|);
  }

  /** Two sequences of `n` pairs that agree pair by pair are equal. */
  lemma EqualByPairs(s: seq<Unit>, t: seq<Unit>, n: nat)
    requires |s| == 2 * n && |t| == 2 * n
    requires forall k :: 0 <= k < n ==> s[2 * k] == t[2 * k] && s[2 * k + 1] == t[2 * k + 1]
    ensures s == t
  {
    forall i | 0 <= i < 2 * n
      ensures s[i] == t[i]
    {
      var k := i / 2;
      assert i == 2 * k || i == 2 * k + 1;
    }
  }

  lemma TodaySeen(dates: seq<Date>, k: nat, today: Date)
    requires k < |dates|
    ensures (today in dates[..k + 1]) == (today in dates[..k] || dates[k] == today)
  {
    assert dates[..k + 1] == dates[..k] + [dates[k]];
  }

  lemma ScheduleSnoc(dates: seq<Date>, k: nat, logRun: bool, today: Date)
    requires k < |dates|
    ensures Schedule(dates[..k + 1], logRun, today)
            == Schedule(dates[..k], logRun, today)
               + UnitsOf(dates[k], logRun && today !in dates[..k + 1])
  {
    assert dates[..k + 1][..k] == dates[..k];
    SeenBySameDate(dates[..k + 1], today);
  }

  /** The disk and the store after one unit's `process_datewise` call,
      from those `before` it: untouched when the fetch, cleaning or parsing
      fails, otherwise what `process_and_write` leaves over the unit's
      records; `success` says whether `process_and_write` returned, and the
      record count and points file are its results (`0` and `None`
      otherwise). */
  predicate UnitProcessed(w: World, fmt: DateFormats, u: Unit, args: RunArgs, variables: Option<seq<string>>,
                          pid: int, refused: set<nat>, before: Side, after: Side,
                          success: bool, numRecords: int, pointsFile: Option<string>)
  {
    var recs := UnitRecords(w, fmt.text(u.date), u.range);
    && (recs.None? ==> after == before)
    && (recs.Some? ==> after == ProcessedSide(w.env, refused, recs.value, fmt.file(u.date), None, u.range, DAILY,
                                              Some(args.flags), OUTPUT_DIR, pid, variables, before))
    && (success <==> recs.Some? && ProcessSucceeds(w.env, refused, recs.value, DAILY, Some(args.flags), OUTPUT_DIR,
                                                   pid, variables, before.files, before.calls))
    && (success ==> numRecords == |recs.value|
                    && pointsFile == if args.flags.retainFile
                                     then Some(RetainedPath(DAILY, fmt.file(u.date), None, u.range)) else None)
    && (!success ==> numRecords == 0 && pointsFile == None)
  }

  /** What the run changes: the disk, the store, and the ledger's rows
      and next id. */
  datatype Snap = Snap(side: Side, rows: seq<Row>, nextId: nat)

  function SnapOf(disk: Disk, store: Store, ledger: RunLedger): Snap
    reads disk, store, ledger
  {
    Snap(Side(disk.files, store.written, store.calls), ledger.rows, ledger.nextId)
  }

  /** What stays fixed over a run's units: the world, the date formats, the
      arguments, the variables, the run-time stamps, the process id, the
      refused batches and whether the ledger's table exists. */
  datatype RunCtx = RunCtx(w: World, fmt: DateFormats, args: RunArgs, variables: Option<seq<string>>,
                           runTime: (Date, int) -> string, pid: int, refused: set<nat>, tableExists: bool)

  /** One unit's call: the unit, the state after it, and its results. */
  datatype Step = Step(unit: Unit, after: Snap, success: bool, numRecords: int, pointsFile: Option<string>)

  /** The row `log_run` writes for a unit. */
  function UnitRow(c: RunCtx, u: Unit, success: bool, numRecords: int, pointsFile: Option<string>): Row
  {
    Row(0, c.runTime(u.date, u.range), c.fmt.text(u.date), IntToString(u.range), c.args.mode, c.args.parameters,
        c.pid, SuccessColumn(success), numRecords, Some(UnitLogPath(c.fmt, u.date, u.range, c.args.mode, c.pid)),
        pointsFile)
  }

  /** `s` is what one unit's call leaves from `before`: the disk and store
      as `UnitProcessed` says, and the ledger with the unit's row upserted
      when the unit is logged and the table exists (otherwise the write
      raises, or is not made, and the ledger is untouched). */
  predicate StepTaken(c: RunCtx, before: Snap, s: Step)
  {
    && UnitProcessed(c.w, c.fmt, s.unit, c.args, c.variables, c.pid, c.refused, before.side, s.after.side,
                     s.success, s.numRecords, s.pointsFile)
    && (s.after.rows, s.after.nextId)
         == if s.unit.logRun && c.tableExists
            then Upsert(before.rows, before.nextId, UnitRow(c, s.unit, s.success, s.numRecords, s.pointsFile))
            else (before.rows, before.nextId)
  }

  /** `StepTaken` under `c`, as a relation. */
  function Taken(c: RunCtx): (Snap, Step) -> bool
  {
    (before, s) => StepTaken(c, before, s)
  }

  /** The state after `steps`, from `start`. */
  function Final(start: Snap, steps: seq<Step>): Snap
  {
    if steps == [] then start else steps[|steps| - 1].after
  }

  /** Every step is related by `taken` to the state the previous one
      left. */
  predicate Chain(taken: (Snap, Step) -> bool, start: Snap, steps: seq<Step>)
    decreases |steps|
  {
    steps != [] ==>
      && Chain(taken, start, steps[..|steps| - 1])
      && taken(Final(start, steps[..|steps| - 1]), steps[|steps| - 1])
  }

  /** `steps` are taken in turn from `start` and end in `now`. */
  predicate Leads(taken: (Snap, Step) -> bool, start: Snap, steps: seq<Step>, now: Snap)
  {
    Chain(taken, start, steps) && Final(start, steps) == now
  }

  /** The units the steps ran. */
  function UnitsDone(steps: seq<Step>): (units: seq<Unit>)
    ensures |units| == |steps| && forall j :: 0 <= j < |steps| ==> units[j] == steps[j].unit
  {
    seq(|steps|, j requires 0 <= j < |steps| => steps[j].unit)
  }

  /** A step taken from where the chain ends extends it. */
  lemma ChainSnoc(taken: (Snap, Step) -> bool, start: Snap, steps: seq<Step>, s: Step)
    requires Chain(taken, start, steps) && taken(Final(start, steps), s)
    ensures Leads(taken, start, steps + [s], s.after)
    ensures UnitsDone(steps + [s]) == UnitsDone(steps) + [s.unit]
  {
    assert (steps + [s])[..|steps|] == steps;
  }

  /** Two chains, the second starting where the first ends, make one. */
  lemma {:induction false} ChainAppend(taken: (Snap, Step) -> bool, start: Snap, a: seq<Step>, b: seq<Step>)
    requires Chain(taken, start, a) && Chain(taken, Final(start, a), b)
    ensures Leads(taken, start, a + b, Final(Final(start, a), b))
    ensures UnitsDone(a + b) == UnitsDone(a) + UnitsDone(b)
    decreases |b|
  {
    if b == [] {
      assert a + b == a;
    } else {
      var init, last := b[..|b| - 1], b[|b| - 1];
      ChainAppend(taken, start, a, init);
      assert taken(Final(Final(start, a), init), last);
      assert a + b == (a + init) + [last];
      ChainSnoc(taken, start, a + init, last);
    }
  }

  /** Steps none of whose units is logged leave the ledger as they found
      it. */
  lemma {:induction false} UnloggedStepsKeepLedger(c: RunCtx, start: Snap, steps: seq<Step>)
    requires Chain(Taken(c), start, steps)
    requires forall j :: 0 <= j < |steps| ==> !steps[j].unit.logRun
    ensures Final(start, steps).rows == start.rows && Final(start, steps).nextId == start.nextId
    decreases |steps|
  {
    if steps != [] {
      var init := steps[..|steps| - 1];
      UnloggedStepsKeepLedger(c, start, init);
      assert Taken(c)(Final(start, init), steps[|steps| - 1]);
    }
  }

  /** Every step keeps the table's invariant, so a whole run does. */
  lemma {:induction false} StepsKeepWellFormed(c: RunCtx, start: Snap, steps: seq<Step>)
    requires Chain(Taken(c), start, steps) && WellFormed(start.rows, start.nextId)
    ensures WellFormed(Final(start, steps).rows, Final(start, steps).nextId)
    decreases |steps|
  {
    if steps != [] {
      var init, last := steps[..|steps| - 1], steps[|steps| - 1];
      StepsKeepWellFormed(c, start, init);
      var before := Final(start, init);
      assert Taken(c)(before, last);
      if last.unit.logRun && c.tableExists {
        UpsertSpec(before.rows, before.nextId, UnitRow(c, last.unit, last.success, last.numRecords, last.pointsFile));
      }
    }
  }

  /** Without `--log_run` no unit of the schedule is logged. */
  lemma {:induction false} UnloggedSchedule(dates: seq<Date>, today: Date)
    ensures forall i :: 0 <= i < 2 * |dates| ==> !Schedule(dates, false, today)[i].logRun
    decreases |dates|
  {
    if dates != [] {
      var init := dates[..|dates| - 1];
      UnloggedSchedule(init, today);
      assert Schedule(dates, false, today) == Schedule(init, false, today) + UnitsOf(dates[|dates| - 1], false);
    }
  }

  /** A run without `--log_run` logs none of its units, so the ledger is
      untouched however far the run got. */
  lemma RunWithoutLogKeepsLedger(c: RunCtx, start: Snap, steps: seq<Step>, dates: seq<Date>, today: Date)
    requires Chain(Taken(c), start, steps) && UnitsDone(steps) <= Schedule(dates, false, today)
    ensures Final(start, steps).rows == start.rows && Final(start, steps).nextId == start.nextId
  {
    UnloggedSchedule(dates, today);
    var done := UnitsDone(steps);
    assert forall j :: 0 <= j < |steps| ==> steps[j].unit == done[j] == Schedule(dates, false, today)[j];
    UnloggedStepsKeepLedger(c, start, steps);
  }

  /** One `process_datewise` call for a unit, logged under
      `UnitLogPath`; only the ledger write can raise, and only when the
      unit is logged and the table is missing.  A logged unit that does not
      raise leaves exactly its own row in the ledger, with the outcome,
      record count and points file of the call. */
  method ProcessUnit(w: World, fmt: DateFormats, disk: Disk, store: Store, ledger: RunLedger, u: Unit,
                     args: RunArgs, variables: Option<seq<string>>, runTime: (Date, int) -> string, pid: int)
    returns (raised: bool, success: bool, numRecords: int, pointsFile: Option<string>)
    modifies disk, store, ledger
    requires ledger.Valid()
    ensures ledger.Valid() && ledger.tableExists == old(ledger.tableExists)
    ensures raised <==> u.logRun && !old(ledger.tableExists)
    ensures StepTaken(RunCtx(w, fmt, args, variables, runTime, pid, store.refused, old(ledger.tableExists)),
                      old(SnapOf(disk, store, ledger)), Step(u, SnapOf(disk, store, ledger), success, numRecords, pointsFile))
  {
    var logPath := UnitLogPath(fmt, u.date, u.range, args.mode, pid);
    raised, success, numRecords, pointsFile :=
      ProcessDatewise(w, fmt, disk, store, ledger, u.date, u.range, u.logRun, Some(args), Some(logPath),
                      variables, runTime(u.date, u.range), pid);
    StepOf(RunCtx(w, fmt, args, variables, runTime, pid, store.refused, old(ledger.tableExists)),
           old(SnapOf(disk, store, ledger)), Step(u, SnapOf(disk, store, ledger), success, numRecords, pointsFile));
  }

  /** A call whose disk, store and ledger changes are those of
      `ProcessUnit` is a step taken. */
  lemma StepOf(c: RunCtx, before: Snap, s: Step)
    requires UnitProcessed(c.w, c.fmt, s.unit, c.args, c.variables, c.pid, c.refused, before.side, s.after.side,
                           s.success, s.numRecords, s.pointsFile)
    requires !(s.unit.logRun && c.tableExists) ==> s.after.rows == before.rows && s.after.nextId == before.nextId
    requires s.unit.logRun && c.tableExists ==>
               (s.after.rows, s.after.nextId)
                 == Upsert(before.rows, before.nextId, UnitRow(c, s.unit, s.success, s.numRecords, s.pointsFile))
    ensures StepTaken(c, before, s)
  {
  }

  /** `for i in range(1, 3): … process_datewise(dt, i, …)` over one
      date's units, stopping at a raise. */
  method RunDay(w: World, fmt: DateFormats, disk: Disk, store: Store, ledger: RunLedger, units: seq<Unit>,
                args: RunArgs, variables: Option<seq<string>>, runTime: (Date, int) -> string, pid: int)
    returns (raised: bool, ghost steps: seq<Step>)
    modifies disk, store, ledger
    requires ledger.Valid() && |units| == 2
    ensures ledger.Valid() && ledger.tableExists == old(ledger.tableExists)
    ensures old(ledger.tableExists) ==> !raised
    ensures Leads(Taken(RunCtx(w, fmt, args, variables, runTime, pid, store.refused, old(ledger.tableExists))),
                  old(SnapOf(disk, store, ledger)), steps, SnapOf(disk, store, ledger))
    ensures !raised ==> UnitsDone(steps) == units
    ensures raised ==> steps != [] && UnitsDone(steps) <= units
  {
    ghost var c := RunCtx(w, fmt, args, variables, runTime, pid, store.refused, ledger.tableExists);
    ghost var start := SnapOf(disk, store, ledger);
    raised, steps := false, [];
    for i := 1 to 3
      invariant |steps| == i - 1 && forall j :: 0 <= j < i - 1 ==> steps[j].unit == units[j]
      invariant Leads(Taken(c), start, steps, SnapOf(disk, store, ledger))
      invariant ledger.Valid() && ledger.tableExists == c.tableExists
    {
      var success, numRecords, pointsFile;
      raised, success, numRecords, pointsFile :=
        ProcessUnit(w, fmt, disk, store, ledger, units[i - 1], args, variables, runTime, pid);
      ghost var s := Step(units[i - 1], SnapOf(disk, store, ledger), success, numRecords, pointsFile);
      ChainSnoc(Taken(c), start, steps, s);
      steps := steps + [s];
      if raised {
        assert UnitsDone(steps) == units[..i];
        return;
      }
    }
    assert UnitsDone(steps) == units;
  }

  /** The body of the loop over the dates: the "today" test clears the
      flag for good, then the two units of `dates[k]` run. */
  method RunDate(w: World, fmt: DateFormats, disk: Disk, store: Store, ledger: RunLedger,
                 dates: seq<Date>, k: nat, flag: bool, logRun: bool, today: Date, args: RunArgs,
                 variables: Option<seq<string>>, runTime: (Date, int) -> string, pid: int,
                 ghost start: Snap, ghost before: seq<Step>)
    returns (raised: bool, flag': bool, ghost steps: seq<Step>)
    modifies disk, store, ledger
    requires ledger.Valid() && k < |dates| && flag == (logRun && today !in dates[..k])
    requires UnitsDone(before) == Schedule(dates[..k], logRun, today)
    requires Leads(Taken(RunCtx(w, fmt, args, variables, runTime, pid, store.refused, ledger.tableExists)),
                   start, before, SnapOf(disk, store, ledger))
    ensures ledger.Valid() && ledger.tableExists == old(ledger.tableExists)
    ensures old(ledger.tableExists) ==> !raised
    ensures flag' == (logRun && today !in dates[..k + 1])
    ensures Leads(Taken(RunCtx(w, fmt, args, variables, runTime, pid, store.refused, old(ledger.tableExists))),
                  start, steps, SnapOf(disk, store, ledger))
    ensures !raised ==> UnitsDone(steps) == Schedule(dates[..k + 1], logRun, today)
    ensures raised ==> steps != [] && UnitsDone(steps) <= Schedule(dates, logRun, today)
  {
    ghost var c := RunCtx(w, fmt, args, variables, runTime, pid, store.refused, ledger.tableExists);
    TodaySeen(dates, k, today);
    flag' := if dates[k] == today then false else flag;
    var units := UnitsOf(dates[k], flag');
    ScheduleSnoc(dates, k, logRun, today);
    ghost var day;
    raised, day := RunDay(w, fmt, disk, store, ledger, units, args, variables, runTime, pid);
    ChainAppend(Taken(c), start, before, day);
    steps := before + day;
    if raised {
      PrefixOfSchedule(dates, k + 1, logRun, today);
      PrefixThrough(UnitsDone(before), units, UnitsDone(day), Schedule(dates, logRun, today));
    }
  }

  /** A prefix of the next step's units, after what came before, is still a
      prefix of the whole run. */
  lemma PrefixThrough(before: seq<Unit>, units: seq<Unit>, done: seq<Unit>, all: seq<Unit>)
    requires done <= units && before + units <= all
    ensures before + done <= all
  {
    assert before + done == (before + units)[..|before| + |done|];
  }

  /** The loop `for dt in dates_list:` with the corrected "today" test:
      the flag is cleared at today's date and stays cleared.  A ledger
      write that raises ends the run; `steps` are the calls made, each from
      the state the previous one left. */
  method RunDates(w: World, fmt: DateFormats, disk: Disk, store: Store, ledger: RunLedger,
                  dates: seq<Date>, logRun: bool, today: Date, args: RunArgs,
                  variables: Option<seq<string>>, runTime: (Date, int) -> string, pid: int)
    returns (raised: bool, ghost steps: seq<Step>)
    modifies disk, store, ledger
    requires ledger.Valid()
    ensures ledger.Valid() && ledger.tableExists == old(ledger.tableExists)
    ensures old(ledger.tableExists) ==> !raised
    ensures Leads(Taken(RunCtx(w, fmt, args, variables, runTime, pid, store.refused, old(ledger.tableExists))),
                  old(SnapOf(disk, store, ledger)), steps, SnapOf(disk, store, ledger))
    ensures !raised ==> UnitsDone(steps) == Schedule(dates, logRun, today)
    ensures raised ==> steps != [] && UnitsDone(steps) <= Schedule(dates, logRun, today)
  {
    ghost var c := RunCtx(w, fmt, args, variables, runTime, pid, store.refused, ledger.tableExists);
    ghost var start := SnapOf(disk, store, ledger);
    var flag := logRun;
    raised, steps := false, [];
    var k := 0;
    while k < |dates|
      invariant 0 <= k <= |dates|
      invariant flag == (logRun && today !in dates[..k])
      invariant UnitsDone(steps) == Schedule(dates[..k], logRun, today)
      invariant Leads(Taken(c), start, steps, SnapOf(disk, store, ledger))
      invariant ledger.Valid() && ledger.tableExists == c.tableExists
    {
      raised, flag, steps := RunDate(w, fmt, disk, store, ledger, dates, k, flag, logRun, today, args, variables,
                                     runTime, pid, start, steps);
      if raised {
        return;
      }
      k := k + 1;
    }
    assert dates[..k] == dates;
  }

  /** The schedule of a prefix of the dates is a prefix of the schedule. */
  lemma {:induction false} PrefixOfSchedule(dates: seq<Date>, n: nat, logRun: bool, today: Date)
    requires n <= |dates|
    ensures Schedule(dates[..n], logRun, today) <= Schedule(dates, logRun, today)
    decreases |dates| - n
  {
    if n < |dates| {
      PrefixOfSchedule(dates, n + 1, logRun, today);
      ScheduleSnoc(dates, n, logRun, today);
    } else {
      assert dates[..n] == dates;
    }
  }

  // ---------------------------------------------------------------------
  // The variable file and the default date

  /** `[line.strip() for line in vf if line.strip()]` over the lines of
      the file. */
  function StrippedLines(lines: seq<string>): (r: seq<string>)
    ensures |r| <= |lines|
  {
    if lines == [] then []
    else
      var t := Strip(lines[|lines| - 1]);
      StrippedLines(lines[..|lines| - 1]) + (if t == [] then [] else [t])
  }

  /** Every variable is a non-empty name with no surrounding white space,
      and each comes from a line of the file. */
  lemma {:induction false} StrippedLinesSpec(lines: seq<string>)
    ensures forall v :: v in StrippedLines(lines) ==> v != [] && Strip(v) == v
    ensures forall v :: v in StrippedLines(lines) ==> exists l :: l in lines && Strip(l) == v
  {
    if lines != [] {
      var init, last := lines[..|lines| - 1], lines[|lines| - 1];
      var t := Strip(last);
      var r := StrippedLines(init);
      assert StrippedLines(lines) == r + (if t == [] then [] else [t]);
      StrippedLinesSpec(init);
      StripIdempotent(last);
      forall v | v in StrippedLines(lines)
        ensures v != [] && Strip(v) == v && exists l :: l in lines && Strip(l) == v
      {
        if v in r {
          var l :| l in init && Strip(l) == v;
          assert l in lines;
        } else {
          assert v == t && last in lines;
        }
      }
    }
  }

  /** The variables a variable file names. */
  function VariablesFromFile(text: string): (r: seq<string>)
    ensures forall v :: v in r ==> v != [] && Strip(v) == v
    ensures |r| == |NonBlankLines(ReadLines(text))|
  {
    StrippedLinesSpec(ReadLines(text));
    StrippedLinesCount(ReadLines(text));
    StrippedLines(ReadLines(text))
  }

  /** One variable per non-blank line of the file, in order. */
  lemma {:induction false} StrippedLinesCount(lines: seq<string>)
    ensures |StrippedLines(lines)| == |NonBlankLines(lines)|
  {
    if lines != [] {
      StrippedLinesCount(lines[..|lines| - 1]);
      BlankIsStripEmpty(lines[|lines| - 1]);
    }
  }

  /** `(datetime.now(utc) - timedelta(days=1)).strftime("%m-%d-%Y")`;
      `None` where the subtraction overflows (today is 0001-01-01). */
  function DefaultDate(today: Date): (r: Option<string>)
    requires Valid(today)
    ensures r.Some? <==> today != MIN_DATE
  {
    PrevDayNextDay(today);
    match PrevDay(today)
    case None => None
    case Some(y) => Some(Format(y))
  }

  /** The default date reads back as the day before today. */
  lemma DefaultDateIsYesterday(today: Date)
    requires Valid(today) && today != MIN_DATE
    ensures var y := ParseDate(DefaultDate(today).value);
      y.Some? && Valid(y.value) && NextDay(y.value) == Some(today)
  {
    PrevDayNextDay(today);
    FormatParseRoundTrip(PrevDay(today).value);
  }

  // ---------------------------------------------------------------------
  // The live run

  /** The warning logged at the end of a live run: by how much the run
      overran `WAIT` (a negative excess), or, when it did not, the
      message that the wait is skipped.  Nothing sleeps. */
  datatype LiveWarning = Overran(excess: real) | SkippingWait

  function LiveWarningFor(wait: real, elapsed: real): (w: LiveWarning)
    ensures w.Overran? <==> elapsed > wait
    ensures w.Overran? ==> w.excess < 0.0 && elapsed == wait - w.excess
  {
    var excess := wait - elapsed;
    if excess < 0.0 then Overran(excess) else SkippingWait
  }

  /** How `main` ends: normally (with the live run's warning), through
      `sys.exit(1)`, or with an uncaught exception. */
  datatype Outcome = Finished(warning: Option<LiveWarning>) | ExitedOne | Crashed

  /** `str(args.range or 1)`. */
  function RangeText(range: Option<string>): (r: string)
    ensures r != [] && (Truthy(range) ==> r == range.value)
  {
    if Truthy(range) then range.value else "1"
  }

  /** How the live branch ends before the ledger, if it does: a failed
      fetch or an answer without text exits with status 1 (`len(raw)`
      raises inside the `try`); `clean_data`'s `0` and an exception in
      `process_and_write` escape `main`. */
  function LiveStop(w: World, flags: WriteFlags, pid: int, refused: set<nat>,
                    files0: map<string, string>, calls0: nat): (stop: Option<Outcome>)
    ensures stop.Some? ==> stop.value == ExitedOne || stop.value == Crashed
    ensures var f := FetchOutcome(w.net, LiveRequest, false, MAX_RETRIES).0;
      stop == Some(ExitedOne) <==> f.Raised? || f.text.None?
  {
    var f := FetchOutcome(w.net, LiveRequest, false, MAX_RETRIES).0;
    if f.Raised? || f.text.None? then Some(ExitedOne)
    else match CleanData(f.text, w.parse)
      case Zero => Some(Crashed)
      case Records(recs) =>
        if ProcessSucceeds(w.env, refused, recs, LIVE, Some(flags), OUTPUT_DIR, pid, None, files0, calls0)
        then None else Some(Crashed)
  }

  /** The disk and the store after the live branch's processing, from
      those `before` it: untouched unless the fetch returned a text that
      cleans and parses, otherwise what `process_and_write` leaves in live
      mode over those records; a run that goes on to the ledger carries
      the record count and the audit copy's path (`0` and `None` when it
      stops). */
  predicate LiveProcessed(w: World, flags: WriteFlags, dateFile: string, timeFile: string, pid: int,
                          refused: set<nat>, before: Side, after: Side, numRecords: int, pointsFile: Option<string>)
  {
    var f := FetchOutcome(w.net, LiveRequest, false, MAX_RETRIES).0;
    && (if f.Raised? || f.text.None? then after == before
        else match CleanData(f.text, w.parse)
          case Zero => after == before
          case Records(recs) =>
            && after == ProcessedSide(w.env, refused, recs, dateFile, Some(timeFile), 1, LIVE, Some(flags),
                                      OUTPUT_DIR, pid, None, before)
            && (ProcessSucceeds(w.env, refused, recs, LIVE, Some(flags), OUTPUT_DIR, pid, None,
                                before.files, before.calls) ==>
                  numRecords == |recs|
                  && pointsFile == if flags.retainFile then Some(RetainedPath(LIVE, dateFile, Some(timeFile), 1))
                                   else None))
    && (LiveStop(w, flags, pid, refused, before.files, before.calls).Some? ==> numRecords == 0 && pointsFile == None)
  }

  /** The live branch up to the ledger: the live fetch, `clean_data`, and
      `process_and_write` in live mode.  `stop` is how the branch ends
      here, if it does. */
  method ProcessLive(w: World, disk: Disk, store: Store, flags: WriteFlags, dateFile: string, timeFile: string,
                     pid: int)
    returns (stop: Option<Outcome>, numRecords: int, pointsFile: Option<string>)
    modifies disk, store
    ensures stop == LiveStop(w, flags, pid, store.refused, old(disk.files), old(store.calls))
    ensures LiveProcessed(w, flags, dateFile, timeFile, pid, store.refused,
                          Side(old(disk.files), old(store.written), old(store.calls)),
                          Side(disk.files, store.written, store.calls), numRecords, pointsFile)
    ensures stop.None? ==> pointsFile == None || pointsFile == Some(RetainedPath(LIVE, dateFile, Some(timeFile), 1))
  {
    var fetched, attempts, pauses := FetchApiDataLive(w.net, MAX_RETRIES);
    if fetched.Raised? || fetched.text.None? {
      return Some(ExitedOne), 0, None;
    }
    var cleaned := CleanData(fetched.text, w.parse);
    if cleaned.Zero? {
      return Some(Crashed), 0, None;
    }
    var r := ProcessAndWrite(w.env, disk, store, cleaned.records, dateFile, Some(timeFile), 1, LIVE,
                             Some(flags), OUTPUT_DIR, pid, None);
    if r.Err? {
      return Some(Crashed), 0, None;
    }
    stop, numRecords, pointsFile := None, r.value.count, r.value.pointsFile;
  }

  /** The live branch with the ledger row written as evidently intended
      (see Findings): the processing above, then, when `log_run` is set,
      `log_run` with the ten arguments `process_datewise` passes, and the
      closing warning.  A missing `runs` table makes the ledger write
      raise. */
  method RunLive(w: World, disk: Disk, store: Store, ledger: RunLedger, args: RunArgs, logRun: bool,
                 range: Option<string>, dateFile: string, timeFile: string, logPath: string,
                 runTime: string, pid: int, wait: real, elapsed: real)
    returns (outcome: Outcome, numRecords: int, pointsFile: Option<string>)
    modifies disk, store, ledger
    requires ledger.Valid()
    ensures ledger.Valid() && ledger.tableExists == old(ledger.tableExists)
    ensures LiveProcessed(w, args.flags, dateFile, timeFile, pid, store.refused,
                          Side(old(disk.files), old(store.written), old(store.calls)),
                          Side(disk.files, store.written, store.calls), numRecords, pointsFile)
    ensures var stop := LiveStop(w, args.flags, pid, store.refused, old(disk.files), old(store.calls));
      stop.Some? ==> outcome == stop.value
    ensures var stop := LiveStop(w, args.flags, pid, store.refused, old(disk.files), old(store.calls));
      stop.None? ==> (outcome == Finished(Some(LiveWarningFor(wait, elapsed))) <==> !logRun || old(ledger.tableExists))
                     && (outcome.Finished? || outcome == Crashed)
    ensures outcome.Finished? && logRun ==>
              (ledger.rows, ledger.nextId) == Upsert(old(ledger.rows), old(ledger.nextId),
                Row(0, runTime, dateFile, RangeText(range), args.mode, args.parameters, pid,
                    SuccessColumn(true), numRecords, Some(logPath), pointsFile))
    ensures !(outcome.Finished? && logRun) ==> ledger.rows == old(ledger.rows) && ledger.nextId == old(ledger.nextId)
  {
    var stop;
    stop, numRecords, pointsFile := ProcessLive(w, disk, store, args.flags, dateFile, timeFile, pid);
    if stop.Some? {
      return stop.value, numRecords, pointsFile;
    }
    if logRun {
      LiveLogBindsIntended(runTime, dateFile, range, args.mode, pid, numRecords, logPath, pointsFile);
      var ok := LogRunWith(ledger, LiveLogArgs(runTime, dateFile, range, args.mode, pid, numRecords, logPath, pointsFile),
                           runTime, dateFile, RangeText(range), args.mode, args.parameters, pid, true,
                           numRecords, Some(logPath), pointsFile);
      if !ok {
        return Crashed, numRecords, pointsFile;
      }
    }
    outcome := Finished(Some(LiveWarningFor(wait, elapsed)));
  }

  // ---------------------------------------------------------------------
  // The live log_run call as written (see Findings)

  /** A positional argument of the call, by its Python value. */
  datatype PyArg = Text(s: string) | Num(n: int) | Flag(b: bool) | NoneArg | Namespace

  function OptText(o: Option<string>): PyArg
  {
    if o.Some? then Text(o.value) else NoneArg
  }

  const DEFAULT_DB: string := "db/run_metadata.db"

  /** `log_run`'s parameters as a call binds them. */
  datatype LogRunCall = LogRunCall(
    runTime: PyArg, dateRun: PyArg, rangeParam: PyArg, mode: PyArg, parameters: PyArg,
    processId: PyArg, success: PyArg, numRecords: PyArg, logPath: PyArg, pointsFilePath: PyArg,
    dbPath: PyArg)

  /** Positional binding: ten arguments leave `db_path` at its default,
      an eleventh becomes `db_path`; any other count is a `TypeError`. */
  function Bind(a: seq<PyArg>): (r: Option<LogRunCall>)
    ensures r.Some? <==> |a| == 10 || |a| == 11
    ensures r.Some? ==> r.value.dbPath == if |a| == 10 then Text(DEFAULT_DB) else a[10]
  {
    if |a| == 10 then Some(LogRunCall(a[0], a[1], a[2], a[3], a[4], a[5], a[6], a[7], a[8], a[9], Text(DEFAULT_DB)))
    else if |a| == 11 then Some(LogRunCall(a[0], a[1], a[2], a[3], a[4], a[5], a[6], a[7], a[8], a[9], a[10]))
    else None
  }

  /** The live call as written: `time_str_file` sits between the date and
      the range. */
  function LiveLogArgsAsWritten(runTime: string, dateFile: string, timeFile: Option<string>, range: Option<string>,
                                mode: Option<string>, pid: int, numRecords: int, logPath: string,
                                pointsFile: Option<string>): seq<PyArg>
  {
    [Text(runTime), Text(dateFile), OptText(timeFile), Text(RangeText(range)), OptText(mode), Namespace,
     Num(pid), Flag(true), Num(numRecords), Text(logPath), OptText(pointsFile)]
  }

  /** The live call as `process_datewise` makes its own: without the time. */
  function LiveLogArgs(runTime: string, dateFile: string, range: Option<string>, mode: Option<string>,
                       pid: int, numRecords: int, logPath: string, pointsFile: Option<string>): seq<PyArg>
  {
    [Text(runTime), Text(dateFile), Text(RangeText(range)), OptText(mode), Namespace,
     Num(pid), Flag(true), Num(numRecords), Text(logPath), OptText(pointsFile)]
  }

  /** As written, every argument after the date lands one parameter late:
      the range goes to `mode`, the namespace to `process_id`, and the
      points file path (`None` or an `output/….txt.gz` path) to `db_path`,
      so the run never reaches the ledger at `db/run_metadata.db`. */
  lemma LiveLogAsWrittenMisbinds(runTime: string, dateFile: string, timeFile: Option<string>, range: Option<string>,
                                 mode: Option<string>, pid: int, numRecords: int, logPath: string, time: Option<string>)
    ensures var pf := Some(RetainedPath(LIVE, dateFile, time, 1));
      forall pointsFile :: pointsFile == None || pointsFile == pf ==>
        var c := Bind(LiveLogArgsAsWritten(runTime, dateFile, timeFile, range, mode, pid, numRecords, logPath, pointsFile));
        && c.Some?
        && c.value.mode == Text(RangeText(range))
        && c.value.processId == Namespace
        && c.value.dbPath == OptText(pointsFile)
        && c.value.dbPath != Text(DEFAULT_DB)
  {
    var p := RetainedPath(LIVE, dateFile, time, 1);
    assert p[..7] == "output/" && DEFAULT_DB[..7] == "db/run_";
  }

  /** Bound without the time, the call fills every column as its name
      says and uses the ledger's own file. */
  lemma LiveLogBindsIntended(runTime: string, dateFile: string, range: Option<string>, mode: Option<string>,
                             pid: int, numRecords: int, logPath: string, pointsFile: Option<string>)
    ensures Bind(LiveLogArgs(runTime, dateFile, range, mode, pid, numRecords, logPath, pointsFile))
            == Some(LogRunCall(Text(runTime), Text(dateFile), Text(RangeText(range)), OptText(mode), Namespace,
                               Num(pid), Flag(true), Num(numRecords), Text(logPath), OptText(pointsFile),
                               Text(DEFAULT_DB)))
  {
  }

  /** A call reaches the ledger when it binds and its `db_path` is the
      ledger's own file. */
  predicate ReachesLedger(c: Option<LogRunCall>)
  {
    c.Some? && c.value.dbPath == Text(DEFAULT_DB)
  }

  /** `log_run(*a)`, where `a` is meant to carry the other parameters'
      values: a call that does not bind raises `TypeError`; so does one
      whose `db_path` is `None` (`os.path.abspath(None)`); any other file
      than the ledger's is either not an SQLite database (the compressed
      audit copy) or has no `runs` table, and the `INSERT` raises.  A call
      that reaches the ledger is `RunLedger.LogRun` with those values. */
  method LogRunWith(ledger: RunLedger, a: seq<PyArg>, runTime: string, dateRun: string, range: string,
                    mode: Option<string>, parameters: string, processId: int, success: bool,
                    numRecords: int, logPath: Option<string>, pointsFilePath: Option<string>)
    returns (ok: bool)
    modifies ledger
    requires ledger.Valid()
    ensures ledger.Valid() && ledger.tableExists == old(ledger.tableExists)
    ensures ok <==> ReachesLedger(Bind(a)) && old(ledger.tableExists)
    ensures !ok ==> ledger.rows == old(ledger.rows) && ledger.nextId == old(ledger.nextId)
    ensures ok ==> (ledger.rows, ledger.nextId) == Upsert(old(ledger.rows), old(ledger.nextId),
                     Row(0, runTime, dateRun, range, mode, parameters, processId,
                         SuccessColumn(success), numRecords, logPath, pointsFilePath))
  {
    if !ReachesLedger(Bind(a)) {
      return false;
    }
    ok := ledger.LogRun(runTime, dateRun, range, mode, parameters, processId, success, numRecords,
                        logPath, pointsFilePath);
  }

  /** The live branch as written: the same processing, then the
      eleven-argument `log_run` call.  Whenever `log_run` is set and the
      processing went through, the call raises and the process ends with
      an uncaught exception, after the store and the disk were written,
      without a ledger row and without the closing warning. */
  method RunLiveAsWritten(w: World, disk: Disk, store: Store, ledger: RunLedger, args: RunArgs, logRun: bool,
                          range: Option<string>, dateFile: string, timeFile: string, logPath: string,
                          runTime: string, pid: int, wait: real, elapsed: real)
    returns (outcome: Outcome, numRecords: int, pointsFile: Option<string>)
    modifies disk, store, ledger
    requires ledger.Valid()
    ensures ledger.Valid() && ledger.rows == old(ledger.rows) && ledger.nextId == old(ledger.nextId)
    ensures LiveProcessed(w, args.flags, dateFile, timeFile, pid, store.refused,
                          Side(old(disk.files), old(store.written), old(store.calls)),
                          Side(disk.files, store.written, store.calls), numRecords, pointsFile)
    ensures var stop := LiveStop(w, args.flags, pid, store.refused, old(disk.files), old(store.calls));
      outcome == if stop.Some? then stop.value
                 else if logRun then Crashed
                 else Finished(Some(LiveWarningFor(wait, elapsed)))
  {
    var stop;
    stop, numRecords, pointsFile := ProcessLive(w, disk, store, args.flags, dateFile, timeFile, pid);
    if stop.Some? {
      return stop.value, numRecords, pointsFile;
    }
    if logRun {
      LiveLogAsWrittenMisbinds(runTime, dateFile, Some(timeFile), range, args.mode, pid, numRecords, logPath,
                               Some(timeFile));
      var ok := LogRunWith(ledger, LiveLogArgsAsWritten(runTime, dateFile, Some(timeFile), range, args.mode, pid,
                                                        numRecords, logPath, pointsFile),
                           runTime, dateFile, RangeText(range), args.mode, args.parameters, pid, true,
                           numRecords, Some(logPath), pointsFile);
      if !ok {
        return Crashed, numRecords, pointsFile;
      }
    }
    outcome := Finished(Some(LiveWarningFor(wait, elapsed)));
  }

  // ---------------------------------------------------------------------
  // main

  /** The variables a range run uses: the lines of the named file, when
      one is named and exists. */
  function FileVariables(variableFile: Option<string>, files: map<string, string>): (r: Option<seq<string>>)
    ensures r.Some? <==> Truthy(variableFile) && variableFile.value in files
  {
    if Truthy(variableFile) && variableFile.value in files
    then Some(VariablesFromFile(files[variableFile.value]))
    else None
  }

  /** How a range run from `startText` to `endText` ends and which units
      it runs: both dates parse (or `strptime` raises), a start after the
      end exits with status 1, a named variable file that is missing
      raises, and otherwise every day from start to end inclusive is run
      under the schedule. */
  predicate RangeDone(startText: string, endText: string, variableFile: Option<string>, files: map<string, string>,
                      logRun: bool, today: Date, outcome: Outcome, units: seq<Unit>)
  {
    match (ParseDate(startText), ParseDate(endText))
    case (Some(s), Some(e)) =>
      && (!LexLe(s, e) ==> outcome == ExitedOne && units == [])
      && (LexLe(s, e) && Truthy(variableFile) && variableFile.value !in files ==> outcome == Crashed && units == [])
      && (LexLe(s, e) && !(Truthy(variableFile) && variableFile.value !in files) ==>
            outcome == Finished(None) && Valid(s) && Valid(e)
            && units == Schedule(DaysFrom(s, DayCount(s, e)), logRun, today))
    case _ => outcome == Crashed && units == []
  }

  /** How a daily run of `date` ends and which units it runs: a date that
      `strptime` parses is run as its two units, anything else raises. */
  predicate DailyDone(date: Option<string>, logRun: bool, today: Date, outcome: Outcome, units: seq<Unit>)
  {
    if date.Some? && ParseDate(date.value).Some?
    then outcome == Finished(None) && units == Schedule([ParseDate(date.value).value], logRun, today)
    else outcome == Crashed && units == []
  }

  /** The range branch: both dates parse (or `strptime` raises), a start
      after the end exits with status 1, otherwise every day from start to
      end inclusive is run, with the variable file's variables when one is
      named (opening a missing file raises). */
  method RunRange(w: World, fmt: DateFormats, disk: Disk, store: Store, ledger: RunLedger,
                  startText: string, endText: string, variableFile: Option<string>, logRun: bool,
                  today: Date, args: RunArgs, runTime: (Date, int) -> string, pid: int)
    returns (outcome: Outcome, ghost units: seq<Unit>, ghost steps: seq<Step>)
    modifies disk, store, ledger
    requires ledger.Valid() && ledger.tableExists
    ensures ledger.Valid() && ledger.tableExists
    ensures units == UnitsDone(steps)
    ensures Leads(Taken(RunCtx(w, fmt, args, FileVariables(variableFile, old(disk.files)), runTime, pid, store.refused, true)),
                  old(SnapOf(disk, store, ledger)), steps, SnapOf(disk, store, ledger))
    ensures RangeDone(startText, endText, variableFile, old(disk.files), logRun, today, outcome, units)
    ensures outcome != Finished(None) ==>
      && disk.files == old(disk.files) && store.written == old(store.written) && ledger.rows == old(ledger.rows)
  {
    units, steps := [], [];
    var ps, pe := ParseDate(startText), ParseDate(endText);
    if ps.None? || pe.None? {
      return Crashed, [], [];
    }
    var s, e := ps.value, pe.value;
    if !LexLe(s, e) {
      return ExitedOne, [], [];
    }
    var dates := DaysFrom(s, DayCount(s, e));
    if Truthy(variableFile) && variableFile.value !in disk.files {
      return Crashed, [], [];
    }
    var variables := FileVariables(variableFile, disk.files);
    var raised;
    raised, steps := RunDates(w, fmt, disk, store, ledger, dates, logRun, today, args, variables, runTime, pid);
    units := UnitsDone(steps);
    outcome := Finished(None);
  }

  /** The daily branch once `args.date` is settled: the date parsed by
      `strptime` (or it raises), and its two units. */
  method RunDaily(w: World, fmt: DateFormats, disk: Disk, store: Store, ledger: RunLedger,
                  date: Option<string>, logRun: bool, today: Date, args: RunArgs,
                  runTime: (Date, int) -> string, pid: int)
    returns (outcome: Outcome, ghost units: seq<Unit>, ghost steps: seq<Step>)
    modifies disk, store, ledger
    requires ledger.Valid() && ledger.tableExists && Valid(today)
    ensures ledger.Valid() && ledger.tableExists
    ensures units == UnitsDone(steps)
    ensures Leads(Taken(RunCtx(w, fmt, args, None, runTime, pid, store.refused, true)),
                  old(SnapOf(disk, store, ledger)), steps, SnapOf(disk, store, ledger))
    ensures DailyDone(date, logRun, today, outcome, units)
    ensures outcome == Crashed ==>
      && disk.files == old(disk.files) && store.written == old(store.written) && ledger.rows == old(ledger.rows)
  {
    units, steps := [], [];
    if date.None? || ParseDate(date.value).None? {
      return Crashed, [], [];
    }
    var raised;
    raised, steps := RunDates(w, fmt, disk, store, ledger, [ParseDate(date.value).value], logRun, today, args, None,
                              runTime, pid);
    units := UnitsDone(steps);
    outcome := Finished(None);
  }

  /** With no date given, the daily run is the two units of yesterday. */
  lemma DailyDefaultIsYesterday(today: Date, logRun: bool)
    requires Valid(today) && today != MIN_DATE
    ensures var y := PrevDay(today).value;
      && ParseDate(DefaultDate(today).value) == Some(y)
      && Schedule([y], logRun, today) == UnitsOf(y, logRun)
  {
    var y := PrevDay(today).value;
    PrevDayNextDay(today);
    FormatParseRoundTrip(y);
    NextDayOrdinal(y);
    assert [y][..0] == [];
  }

  /** The clock readings `main` takes: today's UTC date, the live run's
      file date and time texts and run time, the units' run times, and the
      live run's elapsed seconds. */
  datatype Clock = Clock(today: Date, liveDate: string, liveTime: string, liveRunTime: string,
                         unitRunTime: (Date, int) -> string, elapsed: real)

  /** The live branch of `main`: its log path, then `RunLive` under the
      namespace as it stands, which states the outcome. */
  method MainLive(w: World, disk: Disk, store: Store, ledger: RunLedger, args: Args, clock: Clock,
                  pid: int, wait: real)
    returns (outcome: Outcome)
    modifies disk, store, ledger
    requires ledger.Valid() && ledger.tableExists
    ensures ledger.Valid() && ledger.tableExists
  {
    var logPath := LogPath(LOG_DIR, args.mode, clock.liveDate, Some(clock.liveTime), Some("1"), Some(pid));
    var n, pf;
    outcome, n, pf := RunLive(w, disk, store, ledger, args.Snapshot(), args.logRun, args.range, clock.liveDate,
                              clock.liveTime, logPath, clock.liveRunTime, pid, wait, clock.elapsed);
  }

  /** The daily branch of `main`: yesterday's date is filled in when none
      is given, then that date's units run under the namespace holding
      it. */
  method MainDaily(w: World, fmt: DateFormats, disk: Disk, store: Store, ledger: RunLedger, args: Args,
                   clock: Clock, pid: int)
    returns (outcome: Outcome, ghost units: seq<Unit>, ghost steps: seq<Step>)
    modifies disk, store, ledger, args
    requires ledger.Valid() && ledger.tableExists && Valid(clock.today)
    ensures ledger.Valid() && ledger.tableExists
    ensures units == UnitsDone(steps)
    ensures Leads(Taken(RunCtx(w, fmt, args.Snapshot(), None, clock.unitRunTime, pid, store.refused, true)),
                  old(SnapOf(disk, store, ledger)), steps, SnapOf(disk, store, ledger))
    ensures args.date == if Truthy(old(args.date)) || DefaultDate(clock.today).None? then old(args.date)
                         else DefaultDate(clock.today)
    ensures args.Current() == old(args.Current()).(date := args.date)
    ensures DailyDone(args.date, old(args.logRun), clock.today, outcome, units)
  {
    args.FillDate(DefaultDate(clock.today));
    outcome, units, steps := RunDaily(w, fmt, disk, store, ledger, args.date, args.logRun, clock.today,
                                      args.Snapshot(), clock.unitRunTime, pid);
  }

  /** The run `main` chooses once the dates are collapsed: live, range or
      daily, by `BranchOf` on the namespace as it stands. */
  method RunBranch(w: World, fmt: DateFormats, disk: Disk, store: Store, ledger: RunLedger, args: Args,
                   clock: Clock, pid: int, wait: real)
    returns (outcome: Outcome, ghost units: seq<Unit>, ghost steps: seq<Step>)
    modifies disk, store, ledger, args
    requires ledger.Valid() && ledger.tableExists && Valid(clock.today)
    ensures ledger.Valid() && ledger.tableExists
    ensures units == UnitsDone(steps)
    ensures var branch := BranchOf(old(args.mode), old(args.startdate), old(args.enddate));
      var variables := if branch == RangeRun then FileVariables(old(args.variableFile), old(disk.files)) else None;
      branch != LiveRun ==>
        Leads(Taken(RunCtx(w, fmt, args.Snapshot(), variables, clock.unitRunTime, pid, store.refused, true)),
              old(SnapOf(disk, store, ledger)), steps, SnapOf(disk, store, ledger))
    ensures var yesterday := DefaultDate(clock.today);
      && args.Current() == old(args.Current()).(date := args.date)
      && args.date == (if BranchOf(old(args.mode), old(args.startdate), old(args.enddate)) == DailyRun
                          && !Truthy(old(args.date)) && yesterday.Some?
                       then yesterday else old(args.date))
    ensures BranchOf(old(args.mode), old(args.startdate), old(args.enddate)) == LiveRun ==> units == []
    ensures BranchOf(old(args.mode), old(args.startdate), old(args.enddate)) == DailyRun ==>
      DailyDone(args.date, old(args.logRun), clock.today, outcome, units)
    ensures var (s, e) := (old(args.startdate), old(args.enddate));
      BranchOf(old(args.mode), s, e) == RangeRun ==>
        RangeDone(s.value, e.value, old(args.variableFile), old(disk.files), old(args.logRun), clock.today,
                  outcome, units)
  {
    units, steps := [], [];
    var branch := BranchOf(args.mode, args.startdate, args.enddate);
    if branch == LiveRun {
      outcome := MainLive(w, disk, store, ledger, args, clock, pid, wait);
    } else if branch == RangeRun {
      outcome, units, steps := RunRange(w, fmt, disk, store, ledger, args.startdate.value, args.enddate.value,
                                 args.variableFile, args.logRun, clock.today, args.Snapshot(), clock.unitRunTime, pid);
    } else {
      outcome, units, steps := MainDaily(w, fmt, disk, store, ledger, args, clock, pid);
    }
  }

  /** `main()` after argument parsing: `init_db()`, the same-day collapse,
      then the live, range or daily run.  `WAIT` is `wait`.  Every row a
      range or daily run logs serialises the namespace as `main` leaves it,
      which is the namespace at the time of each `log_run` call. */
  method RunMain(w: World, fmt: DateFormats, disk: Disk, store: Store, ledger: RunLedger, args: Args,
                 clock: Clock, pid: int, wait: real)
    returns (outcome: Outcome, ghost units: seq<Unit>, ghost steps: seq<Step>)
    modifies disk, store, ledger, args
    requires ledger.Valid() && Valid(clock.today)
    ensures ledger.Valid() && ledger.tableExists
    ensures units == UnitsDone(steps)
    ensures var (d, s, e) := Collapsed(old(args.date), old(args.startdate), old(args.enddate));
      var branch := BranchOf(old(args.mode), s, e);
      var variables := if branch == RangeRun then FileVariables(old(args.variableFile), old(disk.files)) else None;
      branch != LiveRun ==>
        Leads(Taken(RunCtx(w, fmt, args.Snapshot(), variables, clock.unitRunTime, pid, store.refused, true)),
              old(SnapOf(disk, store, ledger)), steps, SnapOf(disk, store, ledger))
    ensures var (d, s, e) := Collapsed(old(args.date), old(args.startdate), old(args.enddate));
      var yesterday := DefaultDate(clock.today);
      && args.Current() == old(args.Current()).(date := args.date, startdate := s, enddate := e)
      && args.date == (if BranchOf(old(args.mode), s, e) == DailyRun && !Truthy(d) && yesterday.Some?
                       then yesterday else d)
    ensures var (d, s, e) := Collapsed(old(args.date), old(args.startdate), old(args.enddate));
      BranchOf(old(args.mode), s, e) == LiveRun ==> units == []
    ensures var (d, s, e) := Collapsed(old(args.date), old(args.startdate), old(args.enddate));
      BranchOf(old(args.mode), s, e) == DailyRun ==>
        DailyDone(args.date, old(args.logRun), clock.today, outcome, units)
    ensures var (d, s, e) := Collapsed(old(args.date), old(args.startdate), old(args.enddate));
      BranchOf(old(args.mode), s, e) == RangeRun ==>
        RangeDone(s.value, e.value, old(args.variableFile), old(disk.files), old(args.logRun), clock.today,
                  outcome, units)
  {
    ledger.InitDb();
    args.CollapseSameDay();
    outcome, units, steps := RunBranch(w, fmt, disk, store, ledger, args, clock, pid, wait);
  }
}

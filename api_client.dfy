/** The API client (`src/pipeline/api_client.py`): the retrying fetches
    `fetch_api_data` (daily, by date and range) and `fetch_api_data_live`,
    and `process_datewise`, which runs one (date, range) unit through
    fetch, clean and `process_and_write` and may record it in the run
    ledger.

    The network is an oracle `net`: `net(request, k)` is what attempt `k`
    (counted from 0) of a request ends with — `Failed` when `requests.get`,
    `raise_for_status` or `ElementTree.fromstring` raises, otherwise the
    text of the XML root element, which may be `None`.  The pauses between
    attempts are counted, not slept. */
module ApiClient {
  import opened Common
  import opened Calendar
  import opened Points
  import opened DataCleaner
  import opened Batches
  import opened InfluxWriter
  import opened RunTracker

  // ---------------------------------------------------------------------
  // The date argument of fetch_api_data

  /** The position of the first `c` in `s`, or `|s|` when there is none. */
  function Find(s: string, c: char): (i: nat)
    ensures i <= |s| && (i < |s| ==> s[i] == c)
    ensures forall j :: 0 <= j < i ==> s[j] != c
  {
    if s == [] || s[0] == c then 0 else Find(s[1..], c) + 1
  }

  /** `s.split(sep)`: the pieces between the separators, in order, with
      empty pieces kept. */
  function Split(s: string, sep: char): (parts: seq<string>)
    ensures |parts| >= 1
    decreases |s|
  {
    var i := Find(s, sep);
    if i == |s| then [s] else [s[..i]] + Split(s[i + 1..], sep)
  }

  /** The pieces joined back with the separator. */
  function JoinWith(parts: seq<string>, sep: char): string
  {
    if parts == [] then []
    else if |parts| == 1 then parts[0]
    else parts[0] + [sep] + JoinWith(parts[1..], sep)
  }

  /** Splitting loses nothing: joining the pieces with the separator gives
      the text back. */
  lemma {:induction false} SplitJoin(s: string, sep: char)
    ensures JoinWith(Split(s, sep), sep) == s
    decreases |s|
  {
    var i := Find(s, sep);
    if i < |s| {
      var head, rest := s[..i], s[i + 1..];
      var ps := Split(rest, sep);
      SplitJoin(rest, sep);
      assert Split(s, sep) == [head] + ps;
      assert JoinWith([head] + ps, sep) == head + [sep] + JoinWith(ps, sep) by {
        assert ([head] + ps)[1..] == ps;
      }
      assert s == head + [sep] + rest by {
        assert s[i] == sep;
      }
    }
  }

  /** `month, day, year = [int(x) for x in date_str.split("-")]`: exactly
      three pieces, each an integer; `None` where Python raises
      `ValueError`. */
  function SplitDate(s: string): (r: Option<(int, int, int)>)
    ensures r.Some? ==> |Split(s, '-')| == 3
  {
    var parts := Split(s, '-');
    if |parts| != 3 then None
    else match (ParseInt(parts[0]), ParseInt(parts[1]), ParseInt(parts[2]))
      case (Some(m), Some(d), Some(y)) => Some((m, d, y))
      case _ => None
  }

  lemma Pad2Int(n: int)
    requires 0 <= n < 100
    ensures ParseInt(Pad2(n)) == Some(n)
  {
    var p := Pad2(n);
    StripUnpadded(p);
    Pad2Value(n);
  }

  lemma Pad4Int(n: int)
    requires 0 <= n < 10000
    ensures ParseInt(Pad4(n)) == Some(n)
  {
    var p := Pad4(n);
    StripUnpadded(p);
    Pad4Value(n);
  }

  /** A text without the separator is one piece. */
  lemma SplitNone(s: string, sep: char)
    requires sep !in s
    ensures Split(s, sep) == [s]
  {
  }

  /** The first separator at `i` ends the first piece. */
  lemma SplitAt(s: string, sep: char, i: nat)
    requires i < |s| && s[i] == sep && sep !in s[..i]
    ensures Split(s, sep) == [s[..i]] + Split(s[i + 1..], sep)
  {
    assert forall j :: 0 <= j < i ==> s[j] == s[..i][j];
  }

  /** A separator-free first piece, then the separator, then the rest. */
  lemma SplitCons(a: string, rest: string, sep: char)
    requires sep !in a
    ensures Split(a + [sep] + rest, sep) == [a] + Split(rest, sep)
  {
    var s := a + [sep] + rest;
    assert s[..|a|] == a && s[|a| + 1..] == rest;
    SplitAt(s, sep, |a|);
  }

  /** Three separator-free pieces joined by the separator split back
      into those pieces. */
  lemma SplitThree(a: string, b: string, c: string, sep: char)
    requires sep !in a && sep !in b && sep !in c
    ensures Split(a + [sep] + b + [sep] + c, sep) == [a, b, c]
  {
    var rest := b + [sep] + c;
    assert Split(rest, sep) == [b, c] by {
      SplitCons(b, c, sep);
      SplitNone(c, sep);
    }
    assert a + [sep] + b + [sep] + c == a + [sep] + rest;
    SplitCons(a, rest, sep);
  }

  lemma NoDash(t: string)
    requires AllDigits(t)
    ensures '-' !in t
  {
    forall j | 0 <= j < |t| ensures t[j] != '-' {
      assert IsDigit(t[j]);
    }
  }

  /** A `MM-DD-YYYY` date splits into its month, day and year, in that
      order. */
  lemma SplitFormatted(d: Date)
    requires Valid(d)
    ensures SplitDate(Format(d)) == Some((d.month, d.day, d.year))
  {
    var m, dd, y := Pad2(d.month), Pad2(d.day), Pad4(d.year);
    NoDash(m);
    NoDash(dd);
    NoDash(y);
    SplitThree(m, dd, y, '-');
    Pad2Int(d.month);
    Pad2Int(d.day);
    Pad4Int(d.year);
  }

  // ---------------------------------------------------------------------
  // The retry loop

  /** What is asked of the API: the daily endpoint with the date's month,
      day and year and the range, or the live endpoint. */
  datatype Request = DailyRequest(month: int, day: int, year: int, range: int) | LiveRequest

  /** How one attempt ends. */
  datatype Attempt = Failed | Answered(text: Option<string>)

  /** How a fetch ends: it returns a text (possibly `None`), or it raises. */
  datatype Fetch = Returned(text: Option<string>) | Raised

  /** An attempt the fetch returns on: any answer for the live fetch; only
      an answer with text for the daily one, whose
      `assert root.text is not None` turns an empty answer into a failed
      attempt. */
  predicate Accepts(daily: bool, a: Attempt)
  {
    a.Answered? && (daily ==> a.text.Some?)
  }

  /** The first of the attempts `0 .. n - 1` that is accepted. */
  function FirstAccepted(net: (Request, nat) -> Attempt, req: Request, daily: bool, n: nat): (k: Option<nat>)
    ensures k.Some? ==> k.value < n && Accepts(daily, net(req, k.value))
    ensures k.Some? ==> forall j :: 0 <= j < k.value ==> !Accepts(daily, net(req, j))
    ensures k.None? ==> forall j :: 0 <= j < n ==> !Accepts(daily, net(req, j))
  {
    if n == 0 then None
    else match FirstAccepted(net, req, daily, n - 1)
      case Some(k) => Some(k)
      case None => if Accepts(daily, net(req, n - 1)) then Some(n - 1) else None
  }

  /** The outcome of `for attempt in range(1, max_retries + 1)` and the
      number of attempts made. */
  function FetchOutcome(net: (Request, nat) -> Attempt, req: Request, daily: bool, maxRetries: int): (r: (Fetch, nat))
    ensures r.1 <= if maxRetries > 0 then maxRetries else 0
    ensures maxRetries <= 0 ==> r == (Returned(None), 0)
    ensures r.0.Returned? && r.1 > 0 ==>
              Accepts(daily, net(req, r.1 - 1)) && r.0.text == net(req, r.1 - 1).text
    ensures forall j :: 0 <= j < r.1 - 1 ==> !Accepts(daily, net(req, j))
    ensures r.0.Raised? <==> maxRetries > 0 && forall j :: 0 <= j < maxRetries ==> !Accepts(daily, net(req, j))
    ensures r.0.Raised? ==> r.1 == maxRetries
  {
    if maxRetries <= 0 then (Returned(None), 0)
    else match FirstAccepted(net, req, daily, maxRetries)
      case Some(k) => (Returned(net(req, k).text), k + 1)
      case None => (Raised, maxRetries)
  }

  /** The retry loop: attempt after attempt until one is accepted, with a
      pause after every failed attempt but the last, whose exception is
      re-raised.  With no attempt allowed the loop does not run and the
      function falls off its end, returning `None`. */
  method FetchWithRetry(net: (Request, nat) -> Attempt, req: Request, daily: bool, maxRetries: int)
    returns (r: Fetch, attempts: nat, pauses: nat)
    ensures (r, attempts) == FetchOutcome(net, req, daily, maxRetries)
    ensures pauses == if attempts == 0 then 0 else attempts - 1
  {
    pauses := 0;
    var attempt := 1;
    while attempt <= maxRetries
      invariant 1 <= attempt && pauses == attempt - 1
      invariant maxRetries >= 1 ==> attempt <= maxRetries
      invariant FirstAccepted(net, req, daily, attempt - 1).None?
      decreases maxRetries - attempt
    {
      var a := net(req, attempt - 1);
      if Accepts(daily, a) {
        return Returned(a.text), attempt, pauses;
      }
      if attempt < maxRetries {
        pauses := pauses + 1;
      } else {
        return Raised, attempt, pauses;
      }
      attempt := attempt + 1;
    }
    return Returned(None), 0, 0;
  }

  /** `fetch_api_data(date_str, range_param, max_retries)`: the date is
      split before any attempt is made; a malformed one raises at once. */
  method FetchApiData(net: (Request, nat) -> Attempt, dateStr: string, range: int, maxRetries: int)
    returns (r: Fetch, attempts: nat, pauses: nat)
    ensures SplitDate(dateStr).None? ==> r == Raised && attempts == 0 && pauses == 0
    ensures SplitDate(dateStr).Some? ==>
              var (m, d, y) := SplitDate(dateStr).value;
              (r, attempts) == FetchOutcome(net, DailyRequest(m, d, y, range), true, maxRetries)
    ensures pauses == if attempts == 0 then 0 else attempts - 1
  {
    var parts := SplitDate(dateStr);
    if parts.None? {
      return Raised, 0, 0;
    }
    var (m, d, y) := parts.value;
    r, attempts, pauses := FetchWithRetry(net, DailyRequest(m, d, y, range), true, maxRetries);
  }

  /** `fetch_api_data_live(max_retries)`. */
  method FetchApiDataLive(net: (Request, nat) -> Attempt, maxRetries: int)
    returns (r: Fetch, attempts: nat, pauses: nat)
    ensures (r, attempts) == FetchOutcome(net, LiveRequest, false, maxRetries)
    ensures pauses == if attempts == 0 then 0 else attempts - 1
  {
    r, attempts, pauses := FetchWithRetry(net, LiveRequest, false, maxRetries);
  }

  /** A daily fetch that returns after making an attempt returns text: an
      empty answer is never handed on. */
  lemma DailyReturnsText(net: (Request, nat) -> Attempt, req: Request, maxRetries: int)
    requires maxRetries > 0 && FetchOutcome(net, req, true, maxRetries).0.Returned?
    ensures FetchOutcome(net, req, true, maxRetries).0.text.Some?
  {
  }

  /** An empty answer ends the live fetch: its `None` text is returned. */
  lemma LiveReturnsEmpty(net: (Request, nat) -> Attempt, maxRetries: int)
    requires maxRetries > 0 && net(LiveRequest, 0) == Answered(None)
    ensures FetchOutcome(net, LiveRequest, false, maxRetries) == (Returned(None), 1)
  {
    assert FirstAccepted(net, LiveRequest, false, maxRetries) == Some(0);
  }

  /** An empty answer is only a failed attempt for the daily fetch: with
      one attempt allowed it raises. */
  lemma DailyRaisesOnEmpty(net: (Request, nat) -> Attempt, req: Request)
    requires net(req, 0) == Answered(None)
    ensures FetchOutcome(net, req, true, 1) == (Raised, 1)
  {
  }

  // ---------------------------------------------------------------------
  // process_datewise

  /** The command-line namespace as `process_datewise` reads it: `mode`,
      the write flags, and `vars(args)` as the opaque text `json.dumps`
      makes of it. */
  datatype RunArgs = RunArgs(mode: Option<string>, flags: WriteFlags, parameters: string)

  /** The two `strftime` formats of the configuration, `DATE_FORMAT` and
      `DATE_FORMAT_FILENAME`. */
  datatype DateFormats = DateFormats(text: Date -> string, file: Date -> string)

  /** What the pipeline's collaborators are: the record oracles, the
      network and the payload parser. */
  datatype World = World(env: Env, net: (Request, nat) -> Attempt, parse: string -> Option<seq<Record>>)

  /** `process_and_write`'s default output directory. */
  const OUTPUT_DIR: string := "output"

  /** `fetch_api_data`'s default number of attempts. */
  const MAX_RETRIES: int := 3

  /** The records a unit hands to `process_and_write`: the fetched text,
      cleaned and parsed, or `None` when the fetch raised, returned no text
      (`re.sub` then raises) or the parse failed. */
  function UnitRecords(w: World, dateStr: string, range: int): (r: Option<seq<Record>>)
    ensures r.Some? ==> SplitDate(dateStr).Some?
  {
    var fetched := match SplitDate(dateStr)
      case None => Raised
      case Some((m, d, y)) => FetchOutcome(w.net, DailyRequest(m, d, y, range), true, MAX_RETRIES).0;
    if fetched.Raised? || fetched.text.None? then None
    else match CleanAndParse(fetched.text.value, w.parse)
      case Err(_) => None
      case Ok(records) => Some(records)
  }

  /** When a well-formed date's payload is fetched and parses, those are
      the unit's records; a fetch that fails on every attempt leaves the
      unit without records. */
  lemma UnitRecordsOfDate(w: World, d: Date, range: int)
    requires Valid(d)
    ensures var req := DailyRequest(d.month, d.day, d.year, range);
      var f := FetchOutcome(w.net, req, true, MAX_RETRIES).0;
      && (f.Raised? ==> UnitRecords(w, Format(d), range).None?)
      && (f.Returned? ==>
            UnitRecords(w, Format(d), range) ==
              (match CleanAndParse(f.text.value, w.parse)
               case Err(_) => None
               case Ok(records) => Some(records)))
  {
    SplitFormatted(d);
  }

  /** Fetch, then clean and parse: the records of the unit, if both
      succeed. */
  method FetchRecords(w: World, dateStr: string, range: int) returns (records: Option<seq<Record>>)
    ensures records == UnitRecords(w, dateStr, range)
  {
    var fetched, attempts, pauses := FetchApiData(w.net, dateStr, range, MAX_RETRIES);
    if fetched.Raised? || fetched.text.None? {
      return None;
    }
    var cleaned := CleanAndParse(fetched.text.value, w.parse);
    if cleaned.Err? {
      return None;
    }
    records := Some(cleaned.value);
  }

  /** The flags `process_and_write` reads from `args` (`None` when there
      is no namespace). */
  function FlagsOf(args: Option<RunArgs>): (flags: Option<WriteFlags>)
    ensures flags.Some? <==> args.Some?
    ensures flags.Some? ==> flags.value == args.value.flags
  {
    if args.Some? then Some(args.value.flags) else None
  }

  /** The guarded part of `process_datewise`: fetch, clean and process.
      Any exception is caught; `num_records` and `points_file_path` keep
      their initial `0` and `None` unless `process_and_write` returned. */
  method RunUnit(w: World, disk: Disk, store: Store, dateStr: string, dateFile: string, range: int,
                 args: Option<RunArgs>, pid: int, variables: Option<seq<string>>)
    returns (success: bool, numRecords: int, pointsFile: Option<string>)
    modifies disk, store
    ensures UnitRecords(w, dateStr, range).None? ==>
              !success && disk.files == old(disk.files)
              && store.written == old(store.written) && store.calls == old(store.calls)
    ensures UnitRecords(w, dateStr, range).Some? ==>
              Side(disk.files, store.written, store.calls) ==
                ProcessedSide(w.env, store.refused, UnitRecords(w, dateStr, range).value, dateFile, None, range,
                              DAILY, FlagsOf(args), OUTPUT_DIR, pid, variables,
                              Side(old(disk.files), old(store.written), old(store.calls)))
    ensures success <==> && UnitRecords(w, dateStr, range).Some?
                         && ProcessSucceeds(w.env, store.refused, UnitRecords(w, dateStr, range).value, DAILY,
                                            FlagsOf(args), OUTPUT_DIR, pid, variables,
                                            old(disk.files), old(store.calls))
    ensures success ==> && numRecords == |UnitRecords(w, dateStr, range).value|
                        && pointsFile == if args.Some? && args.value.flags.retainFile
                                         then Some(RetainedPath(DAILY, dateFile, None, range)) else None
    ensures !success ==> numRecords == 0 && pointsFile == None
  {
    success, numRecords, pointsFile := false, 0, None;
    var records := FetchRecords(w, dateStr, range);
    if records.None? {
      return;
    }
    var r := ProcessAndWrite(w.env, disk, store, records.value, dateFile, None, range, DAILY,
                             FlagsOf(args), OUTPUT_DIR, pid, variables);
    if r.Ok? {
      success, numRecords, pointsFile := true, r.value.count, r.value.pointsFile;
    }
  }

  /** `process_datewise(dt, range_param, log_run_to_localdb, args,
      log_path, variables_list)`.  A failure to fetch, clean or process
      never leaves the function; only the ledger write can raise: `args`
      being `None` (`args.mode`) or the `runs` table missing.  The ledger
      is written exactly once when `log_run_to_localdb` is set, and not at
      all otherwise. */
  method ProcessDatewise(w: World, fmt: DateFormats, disk: Disk, store: Store, ledger: RunLedger,
                         dt: Date, range: int, logRun: bool, args: Option<RunArgs>,
                         logPath: Option<string>, variables: Option<seq<string>>,
                         runTime: string, pid: int)
    returns (raised: bool, success: bool, numRecords: int, pointsFile: Option<string>)
    modifies disk, store, ledger
    requires ledger.Valid()
    ensures ledger.Valid() && ledger.tableExists == old(ledger.tableExists)
    ensures raised <==> logRun && (args.None? || !old(ledger.tableExists))
    ensures !logRun || raised ==> ledger.rows == old(ledger.rows) && ledger.nextId == old(ledger.nextId)
    ensures logRun && !raised ==>
              (ledger.rows, ledger.nextId) == Upsert(old(ledger.rows), old(ledger.nextId),
                Row(0, runTime, fmt.text(dt), IntToString(range), args.value.mode, args.value.parameters,
                    pid, SuccessColumn(success), numRecords, logPath, pointsFile))
    ensures UnitRecords(w, fmt.text(dt), range).None? ==>
              !success && disk.files == old(disk.files)
              && store.written == old(store.written) && store.calls == old(store.calls)
    ensures UnitRecords(w, fmt.text(dt), range).Some? ==>
              Side(disk.files, store.written, store.calls) ==
                ProcessedSide(w.env, store.refused, UnitRecords(w, fmt.text(dt), range).value, fmt.file(dt), None,
                              range, DAILY, FlagsOf(args), OUTPUT_DIR, pid, variables,
                              Side(old(disk.files), old(store.written), old(store.calls)))
    ensures success <==> && UnitRecords(w, fmt.text(dt), range).Some?
                         && ProcessSucceeds(w.env, store.refused, UnitRecords(w, fmt.text(dt), range).value, DAILY,
                                            FlagsOf(args), OUTPUT_DIR, pid, variables,
                                            old(disk.files), old(store.calls))
    ensures success ==> && numRecords == |UnitRecords(w, fmt.text(dt), range).value|
                        && pointsFile == if args.Some? && args.value.flags.retainFile
                                         then Some(RetainedPath(DAILY, fmt.file(dt), None, range)) else None
    ensures !success ==> numRecords == 0 && pointsFile == None
  {
    var dtStr := fmt.text(dt);
    var dtStrFile := fmt.file(dt);
    success, numRecords, pointsFile := RunUnit(w, disk, store, dtStr, dtStrFile, range, args, pid, variables);
    raised := false;
    if logRun {
      if args.None? {
        return true, success, numRecords, pointsFile;
      }
      var ok := ledger.LogRun(runTime, dtStr, IntToString(range), args.value.mode, args.value.parameters,
                              pid, success, numRecords, logPath, pointsFile);
      raised := !ok;
    }
  }
}

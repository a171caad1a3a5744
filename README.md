# evonith_dailylive_datafeed — a verified model of the pipeline core

The pipeline fetches blast-furnace process data from an HTTP API, either the
latest snapshot ("live") or one date and half-day range at a time ("daily"). It
strips `<script>` spans from the payload and parses it into records. Each record
becomes InfluxDB line protocol, written to a temporary file. It can push that
file to InfluxDB in batches, keep a gzipped audit copy, and record every run in
an SQLite `runs` table keyed by `(date_run, range, mode)`.

This project models that core in Dafny, one module per source file:

- `FieldMap` (field_map.dfy): the six mapping tables, `get_measurement_and_field`, `get_numeric`
- `Points` (points.dfy): `build_points`: its loops as methods, proved equal to a value-level specification
- `Batches` (batches.dfy): the batching loop of `write_to_influxdb`; the InfluxDB client is a `Store` that records or refuses writes
- `InfluxWriter` (influx_writer.dfy): `write_points_to_txt` on a `Disk` class, the record loop of `process_and_write`, write gating, the retained path, `should_write_point`
- `DataCleaner` (data_cleaner.dfy): script stripping, `clean_and_parse_data`, `clean_data`
- `RunTracker` (run_tracker.dfy): the `runs` table as a `RunLedger` class: `init_db`, `log_run` (upsert)
- `Utils` (utils.dfy): `daterange` as a loop, `check_existing_data`, the log-path rule
- `ApiClient` (api_client.dfy): the retry loops of both fetches, the date split, `process_datewise`
- `Cli` (cli.dfy): `main`: flag parsing, the start = end collapse, the live/range/daily dispatch, the date × range unit schedule, the variable file, the default date, the live run
- `Common`, `Calendar` (common.dfy, calendar.dfy): Python string helpers (`strip`, `lower`, `str(int)`, `int(str)`), Gregorian dates with `strptime`/`strftime` for `%m-%d-%Y`

Every outside collaborator is a parameter:
- the network is a function from (request, attempt number) to an attempt outcome;
- `ast.literal_eval` is a partial parser;
- `float()` and `f"{val}"` are a parse and a render function;
- the `Timelogged` parser and the time formatter are functions;
- the clock is a set of readings passed to `main`;
- the InfluxDB client is a `Store` whose refused write numbers are fixed at construction.

Where the code and its documentation disagree, the model follows the code:
- the temporary file is not removed when `retain_file` is false, so in daily mode it keeps growing across units;
- live mode never sleeps;
- `check_existing_data` and `should_write_point` are the stubs they are.

The two defects under "## Findings" are the exception. Each is modelled twice: as written, with the input that shows it, and as evidently intended. The rest of the model, `Cli.RunMain` included, uses the intended behaviour.

## Model

| member | source | states |
|---|---|---|
| FieldMap.GetMeasurementAndField | src/pipeline/bf2_rename_map.py:38-50 | a classified key is in its measurement's table, and the field is that table's entry for the key |
| FieldMap.GetMeasurementAndFieldIsFirstHit | src/pipeline/bf2_rename_map.py:38-50 | the lookup is the first hit of a search over the tables in the order temperature_profile, process_params, heatload_delta_t, miscellaneous, cooling_water, delta_t |
| FieldMap.ClassifyHit | src/pipeline/bf2_rename_map.py:38-49 | a key in table i and in no earlier table gives table i's measurement and mapped field |
| FieldMap.UnknownIffInNoTable | src/pipeline/bf2_rename_map.py:38-50 | `(None, None)` comes back exactly when the key is in none of the six tables |
| FieldMap.GetNumeric | src/pipeline/bf2_rename_map.py:53-66 | only strings, bytes, integers, floats and booleans can coerce; `None`, timestamps and other literals give `None` |
| FieldMap.GetNumericString | src/pipeline/bf2_rename_map.py:61-66 | a string that strips to nothing gives `None` without reaching `float()`; any other string, and any bytes literal, gives exactly what `float()` makes of it |
| FieldMap.GetNumericNumbers | src/pipeline/bf2_rename_map.py:61-66 | integers, floats and booleans coerce to their own value (True to 1.0, False to 0.0); `None` gives `None` |
| Points.GroupFields | src/pipeline/bf2_rename_map.py:81-101 | the first loop leaves one line per measurement, opened by the measurement's first contributing field and extended by the others in record order |
| Points.StampLines | src/pipeline/bf2_rename_map.py:102-103 | every line gets the same `" " + epoch` suffix; with no timestamp and at least one line the loop raises; with no lines nothing happens |
| Points.JoinLines | src/pipeline/bf2_rename_map.py:105-107 | the output is the lines in first-appearance order, each followed by a newline |
| Points.BuildPoints | src/pipeline/bf2_rename_map.py:69-115 | `build_points` returns exactly the specification text, or raises exactly where it says |
| Points.SpecPoints | src/pipeline/bf2_rename_map.py:69-115 | `build_points` raises exactly when some field qualifies and there is no usable timestamp |
| Points.GroupIsGrouped | src/pipeline/bf2_rename_map.py:83-101 | the grouping fold meets the line-per-measurement invariant |
| Points.MeasurementsInOrderMembers | src/pipeline/bf2_rename_map.py:91-101 | a measurement has a line exactly when some field contributes to it |
| Points.MeasurementsInOrderDistinct | src/pipeline/bf2_rename_map.py:91-96 | no measurement gets two lines |
| Points.FieldsOfEmpty | src/pipeline/bf2_rename_map.py:91-101 | a measurement's field list is empty exactly when it has no line |
| Points.MeasurementsPrefix | src/pipeline/bf2_rename_map.py:83-101 | lines keep the order in which measurements first got a field: a longer record only appends measurements |
| Points.ContributionsAppend | src/pipeline/bf2_rename_map.py:83-101 | fields are taken in record iteration order: splitting a record splits its contributions |
| Points.InContributions | src/pipeline/bf2_rename_map.py:83-101 | a field is emitted exactly when some entry of the record produces it |
| Points.MeasurementHasLineIff | src/pipeline/bf2_rename_map.py:91-101 | a measurement has a line exactly when some entry classifies into it with a value that coerces |
| Points.SuppressedMeasurement | src/pipeline/bf2_rename_map.py:92-101 | a measurement whose values all coerce to `None` gets no line |
| Points.DropNonContributing | src/pipeline/bf2_rename_map.py:86-90 | an entry that contributes nothing can be removed without changing the contributions |
| Points.NonContributingIrrelevant | src/pipeline/bf2_rename_map.py:85-94 | an unknown key, a key mapped to a null field, a key in `STRING_FIELDS`, or a value that does not coerce leaves the output unchanged |
| Points.EmptyIffNothingQualifies | src/pipeline/bf2_rename_map.py:102-107 | the output is `""` exactly when no field qualifies |
| Points.EndsWithTimestamp | src/pipeline/bf2_rename_map.py:102-107 | non-empty output needs a timestamp and ends with `" " + epoch + "\n"` |
| Batches.TranslateNewlines | src/pipeline/influx_writer.py:119-120 | text read in text mode holds no carriage return and is no longer than the file |
| Batches.TranslateNewlinesKeeps | src/pipeline/influx_writer.py:119-120 | a file without carriage returns reads back as it was written |
| Batches.TranslateNewlinesIdempotent | src/pipeline/influx_writer.py:119-120 | translating newlines twice is translating them once |
| Batches.ReadLines | src/pipeline/influx_writer.py:119-120 | the lines read from a text-mode file cover its translated text exactly |
| Batches.FileLinesFlatten | src/pipeline/influx_writer.py:119-120 | iterating the file line by line covers its text exactly |
| Batches.FileLinesShape | src/pipeline/influx_writer.py:119-120 | each line is non-empty, holds a newline at most at its end, and only the last may lack one |
| Batches.RStripNewlines | src/pipeline/influx_writer.py:122 | `rstrip("\n")` removes a run of trailing newlines and nothing else |
| Batches.BatchesCover | src/pipeline/influx_writer.py:119-124 | the batches, concatenated, are the file's non-blank lines in order, with trailing newlines removed |
| Batches.FeedCovers | src/pipeline/influx_writer.py:120-142 | one iteration appends its line, without the newline, to the lines held so far, flushed or open, unless the line is blank |
| Batches.BatchSizes | src/pipeline/influx_writer.py:123-148 | every batch but the last has `batch_size` lines; the last has 1 to `batch_size` |
| Batches.BatchCount | src/pipeline/influx_writer.py:123-148 | the number of writes is ceil(n / batch_size) for n non-blank lines |
| Batches.TotalLinesFull | src/pipeline/influx_writer.py:125 | full batches count `batch_size` lines each |
| Batches.Accepted | src/pipeline/influx_writer.py:133-135 | the writes before the first refused one are all accepted, and the count stops at that refusal |
| Batches.Store.Write | src/pipeline/influx_writer.py:133-135 | a write is either recorded or refused, and every call is counted |
| Batches.SendBatch | src/pipeline/influx_writer.py:124-135 | one batch is sent joined by newlines, and recorded exactly when the store accepts it |
| Batches.SendLine | src/pipeline/influx_writer.py:120-142 | one iteration keeps the loop's invariant: the flushed batches are the scan's, all accepted and written in order; on a refusal the refused batch is the scan's next one |
| Batches.SendFullBatches | src/pipeline/influx_writer.py:119-144 | the loop sends the full batches in order and stops at the first refusal, keeping the earlier batches written |
| Batches.WriteToInfluxDB | src/pipeline/influx_writer.py:115-170 | the batches are made from the file's lines as text mode reads them; the store receives the batches up to the first refusal; `ok` holds exactly when all were accepted; `wrote` counts the lines of every batch attempted, the refused one included |
| InfluxWriter.WriteTxt | src/pipeline/influx_writer.py:57-64 | writing touches only the named file, which exists afterwards |
| InfluxWriter.Disk.WritePointsToTxt | src/pipeline/influx_writer.py:29-64 | appends when the file exists and the mode is not live, overwrites otherwise |
| InfluxWriter.WriteAll | src/pipeline/influx_writer.py:225-226 | a run of writes touches only the temporary file |
| InfluxWriter.LiveKeepsLast | src/pipeline/influx_writer.py:57-64 | in live mode the file ends up holding only the last record's lines |
| InfluxWriter.OtherModesAppend | src/pipeline/influx_writer.py:57-64 | in any other mode the file keeps its old content followed by every record's lines |
| InfluxWriter.RetainFiles | src/pipeline/influx_writer.py:247-256 | the audit copy holds the temporary file's content; the temporary and uncompressed names are gone; other files are unchanged |
| InfluxWriter.Disk.Retain | src/pipeline/influx_writer.py:247-254 | the rename, gzip and remove steps leave the disk as `RetainFiles` says |
| InfluxWriter.FilterRecord | src/pipeline/influx_writer.py:203-208 | filtering never adds entries |
| InfluxWriter.FilterRecordSpec | src/pipeline/influx_writer.py:203-208 | an entry survives exactly when its key is listed or is `Timelogged`; without a list the record is unchanged |
| InfluxWriter.KeyAt | src/pipeline/influx_writer.py:209 | finds the first entry with the key, or reports that there is none |
| InfluxWriter.StampRecord | src/pipeline/influx_writer.py:209-222 | the record keeps its length, and a parsed `Timelogged` becomes the point timestamp |
| InfluxWriter.OneTextPerRecord | src/pipeline/influx_writer.py:201-227 | without a failure, there is one text per record, and text i is record i's points |
| InfluxWriter.FailureSticks | src/pipeline/influx_writer.py:201-227 | once `build_points` raises, later records are never processed |
| InfluxWriter.WriteRecord | src/pipeline/influx_writer.py:203-227 | one record is filtered, stamped, built and written, or the build raises and the disk is unchanged |
| InfluxWriter.LoopBody | src/pipeline/influx_writer.py:201-227 | one loop step keeps the disk equal to the writes of the texts built so far, and tracks the last parsed timestamp |
| InfluxWriter.WriteRecords | src/pipeline/influx_writer.py:201-227 | the file holds the writes of every record's text, or of those before the failing one |
| InfluxWriter.RetainedName | src/pipeline/influx_writer.py:240-245 | the audit name lies in `output/` and ends in `.txt` |
| InfluxWriter.RetainedPath | src/pipeline/influx_writer.py:239-256 | every audit path, daily or live, is `output/…txt.gz` |
| InfluxWriter.RetainedPathsDistinct | src/pipeline/influx_writer.py:240-244 | a daily audit path never equals a live one |
| InfluxWriter.PushedSide | src/pipeline/influx_writer.py:229-256 | after the push and the audit copy, the store's text only grows and its call count never falls; without `db_write` and `override` the store is untouched |
| InfluxWriter.ProcessedSide | src/pipeline/influx_writer.py:173-256 | the state `process_and_write` leaves: the store only grows, and it is untouched when a record fails to build or the store is not written |
| InfluxWriter.PushAndRetain | src/pipeline/influx_writer.py:229-256 | the disk and store end as `PushedSide` says; it returns without error exactly when the temporary file exists where needed and every batch was accepted; a missing file and a refused batch are told apart |
| InfluxWriter.ProcessAndWrite | src/pipeline/influx_writer.py:173-260 | the disk and store end as `ProcessedSide` says, and the call returns exactly when `ProcessSucceeds` holds. The returned count is `len(cleaned_list)`. The store is written only when `db_write` and `override` both hold, and then receives the file's batches up to the first refusal. The points path is the retained path exactly when `retain_file` holds. Each error is named with the disk and store state it leaves. |
| InfluxWriter.ShouldWritePoint | src/pipeline/influx_writer.py:263-277 | the stub always says to write |
| InfluxWriter.TmpPath | src/pipeline/influx_writer.py:200 | the temporary file lies in the output directory and is named `tmp_<pid>.txt` after the process |
| InfluxWriter.PushGate | src/pipeline/influx_writer.py:229-230 | the store is only written when a namespace is passed |
| InfluxWriter.RetainGate | src/pipeline/influx_writer.py:239 | the audit copy is only kept when a namespace is passed |
| DataCleaner.StripScripts | src/pipeline/data_cleaner.py:24 | removing spans never lengthens the text |
| DataCleaner.SpanIndices | src/pipeline/data_cleaner.py:24 | a span starts at the first `<script` and its end tag is the first `</script>` after it; both lie inside the text |
| DataCleaner.FirstSpanFinds | src/pipeline/data_cleaner.py:24 | the first span splits the text as kept + `<script` + body + `</script>` + rest; it opens at the first `<script`, and the body holds no `</script>`; there is none exactly when no `<script` occurs or no `</script>` follows the first one |
| DataCleaner.FirstSpanExtend | src/pipeline/data_cleaner.py:24 | text appended after the first span leaves that span where it was |
| DataCleaner.UnclosedUnchanged | src/pipeline/data_cleaner.py:24 | when no `</script>` follows the first `<script`, the text is left as it is, even if a `</script>` comes earlier |
| DataCleaner.UnclosedTailKept | src/pipeline/data_cleaner.py:24 | after text whose spans all close, a tail that opens a span and never closes it is kept whole |
| DataCleaner.UnclosedScriptTailKept | src/pipeline/data_cleaner.py:24 | an unterminated `<script` tail after closed script spans survives stripping unchanged |
| DataCleaner.FirstSpanLeading | src/pipeline/data_cleaner.py:24 | a span at the very front is the first one found, and it ends at the first `</script>` of its body |
| DataCleaner.NoCloseUnchanged | src/pipeline/data_cleaner.py:24 | text without a `</script>` (so also an unclosed `<script`) is left as it is |
| DataCleaner.LeadingScriptRemoved | src/pipeline/data_cleaner.py:24 | a leading span is removed up to the nearest `</script>`, newlines included, and scanning resumes after it |
| DataCleaner.PlainPayloadParsed | src/pipeline/data_cleaner.py:24-29 | text without `<script` reaches the parser stripped; a parse failure gives no records |
| DataCleaner.ScriptPrefixedPayload | src/pipeline/data_cleaner.py:24-31 | a script-prefixed payload parses to the same records as the payload alone |
| DataCleaner.CleanAndParse | src/pipeline/data_cleaner.py:13-31 | the records are exactly the parser's result on the stripped, script-free text; text without a `</script>` reaches the parser only stripped of white space |
| DataCleaner.CleanData | src/pipeline/data_cleaner.py:34-51 | 0 exactly when the payload is missing or `clean_and_parse_data` raises; otherwise the records it returns |
| DataCleaner.CleanDataAgrees | src/pipeline/data_cleaner.py:34-51 | `clean_data` returns 0 exactly when `clean_and_parse_data` raises, and otherwise its records; a missing payload gives 0 |
| RunTracker.KeyIndex | src/pipeline/run_tracker.py:42 | finds the row holding a key, or reports that none does |
| RunTracker.Upsert | src/pipeline/run_tracker.py:86-98 | every call draws the next `AUTOINCREMENT` id, the update path included, and the table grows by at most one row |
| RunTracker.UpsertSpec | src/pipeline/run_tracker.py:86-98 | after an upsert the row at the key's slot carries the call's values; with a non-null mode no two rows share the key (a null mode never conflicts, as in SQLite's UNIQUE); rows with other keys are unchanged; the count grows by one exactly when the key was absent; an updated row keeps its id and a new row gets the id drawn; ids stay well formed |
| RunTracker.UpdateSkipsAnId | src/pipeline/run_tracker.py:86-98 | a row inserted after an update gets `nextId + 1`: the update's id is drawn and never used |
| RunTracker.SuccessColumn | src/pipeline/run_tracker.py:106 | `int(success)` is 1 for true and 0 for false |
| RunTracker.RunLedger.InitDb | src/pipeline/run_tracker.py:16-50 | the table exists afterwards, and existing rows are untouched |
| RunTracker.RunLedger.LogRun | src/pipeline/run_tracker.py:53-113 | the table becomes the upsert of the call's row, or the call raises (no table) and nothing changes |
| Utils.DayCount | src/pipeline/utils.py:29 | the number of days stays within the calendar |
| Utils.DateRange | src/pipeline/utils.py:15-35 | the generator yields the specification's dates; an unparsable date raises |
| Utils.DateRangeSpec | src/pipeline/utils.py:15-34 | the generator yields exactly when both dates parse, and raises otherwise |
| Utils.DaysUntil | src/pipeline/utils.py:27-34 | the loop yields every day from start to end, and reports the overflow past 9999-12-31 |
| Utils.DateRangeEnds | src/pipeline/utils.py:25-34 | nothing is yielded when start > end; otherwise the first is start, the last is end, and there are day-difference + 1 of them |
| Utils.RangeDatesEnds | src/pipeline/utils.py:25-34 | the dates from start to end: none when start > end, otherwise day-difference + 1 of them, from start to end |
| Utils.DateRangeSteps | src/pipeline/utils.py:29-33 | every value is zero-padded `MM-DD-YYYY`, and each is the day after the one before |
| Utils.CheckExistingData | src/pipeline/utils.py:38-50 | the stub always answers False |
| Utils.LogPath | src/pipeline/utils.py:76-80 | the path ends in `.log`, and lies under the log directory unless the mode is an absolute path |
| Calendar.NextDayOrdinal | src/pipeline/utils.py:33 | adding a day moves the day number by one, and fails only at 9999-12-31 |
| Calendar.OrdinalOrder | src/pipeline/utils.py:29 | date comparison is comparison of day numbers |
| Calendar.FormatParseRoundTrip | src/pipeline/utils.py:25-30 | `strptime` reads back what `strftime("%m-%d-%Y")` wrote |
| Calendar.FormatInjective | src/pipeline/utils.py:30 | different dates format differently |
| Calendar.DaysFromSpec | src/main.py:201-204 | `start + timedelta(days=i)` gives valid consecutive days |
| Calendar.DaysBetween | src/main.py:198-204 | for start ≤ end, the list runs from start to end |
| Calendar.PrevDayNextDay | src/main.py:239-242 | subtracting a day inverts adding one, and fails only at 0001-01-01 |
| Calendar.ParseDate | src/main.py:194-195 | `strptime(…, "%m-%d-%Y")` only yields a date that exists |
| Calendar.Format | src/pipeline/utils.py:30 | `strftime("%m-%d-%Y")` is zero-padded: two digits, a dash, two digits, a dash, four digits |
| Common.IntToStringRoundTrip | src/pipeline/api_client.py:48 | `int(str(n)) == n` |
| Common.StripIdempotent | src/main.py:212 | stripping twice is stripping once |
| ApiClient.SplitJoin | src/pipeline/api_client.py:48 | `str.split` on a separator, joined back, gives the text |
| ApiClient.Split | src/pipeline/api_client.py:48 | `str.split` always gives at least one part |
| ApiClient.SplitDate | src/pipeline/api_client.py:48 | a split date has exactly three parts |
| ApiClient.SplitFormatted | src/pipeline/api_client.py:48 | a `MM-DD-YYYY` date splits into its month, day and year, in that order |
| ApiClient.FirstAccepted | src/pipeline/api_client.py:58-68 | finds the first accepted attempt, with every earlier one failed |
| ApiClient.FetchOutcome | src/pipeline/api_client.py:58-104 | at most `max_retries` attempts; the first accepted one's text is returned; the fetch raises exactly when every attempt fails |
| ApiClient.FetchWithRetry | src/pipeline/api_client.py:58-74 | the loop ends as `FetchOutcome` says, with a pause after every attempt but the last |
| ApiClient.FetchApiData | src/pipeline/api_client.py:34-74 | a date that does not split into three integers raises before any attempt; otherwise the daily retry outcome |
| ApiClient.FetchApiDataLive | src/pipeline/api_client.py:77-104 | the live retry outcome |
| ApiClient.DailyReturnsText | src/pipeline/api_client.py:63-64 | the daily fetch never returns an empty answer |
| ApiClient.LiveReturnsEmpty | src/pipeline/api_client.py:97-98 | the live fetch returns an empty answer on its first attempt |
| ApiClient.DailyRaisesOnEmpty | src/pipeline/api_client.py:64-74 | with one attempt, an empty daily answer raises |
| ApiClient.UnitRecordsOfDate | src/pipeline/api_client.py:128-140 | a unit's records are those parsed from its date's payload; a fetch that always fails gives none |
| ApiClient.UnitRecords | src/pipeline/api_client.py:128-140 | a date that does not split into three parts yields no records |
| ApiClient.FetchRecords | src/pipeline/api_client.py:133-140 | fetch, clean and parse yield the unit's records |
| ApiClient.RunUnit | src/pipeline/api_client.py:127-156 | a failure is contained. Without records, nothing is written. With records, the disk and store end as `process_and_write` leaves them. Success holds exactly when it returns, and then the count and path are its results; otherwise they stay 0 and `None` |
| ApiClient.ProcessDatewise | src/pipeline/api_client.py:107-171 | only the ledger write can raise, and it does exactly when logging is asked and there is no namespace to serialise or no table; a logged call upserts exactly one row with `str(range_param)` and the call's outcome; an unlogged one leaves the ledger alone; the disk and store end as in `RunUnit` |
| Cli.ParseFlag | src/main.py:69 | only a text of length 1, 3 or 4 can be true |
| Cli.ParseFlagCases | src/main.py:104 | "TRUE", "Yes", "1" and "true" are true; "false", "0", "no" and "" are false |
| Cli.ParseFlagCaseless | src/main.py:75 | letter case never matters |
| Cli.CollapsedSpec | src/main.py:126-133 | a non-empty start equal to the end becomes the date, and start and end are cleared; otherwise nothing changes; a second collapse changes nothing |
| Cli.Collapsed | src/main.py:126-133 | after the collapse, start and end never name the same non-empty day; a surviving start means nothing changed |
| Cli.Args.CollapseSameDay | src/main.py:126-133 | the namespace's dates become the collapsed ones, and nothing else changes |
| Cli.Args.FillDate | src/main.py:238-242 | a missing or empty date becomes yesterday, unless computing yesterday raises; a given date is kept; nothing else in the namespace changes |
| Cli.BranchOf | src/main.py:135 | a run is live exactly when the mode is "live" |
| Cli.SameDayIsDaily | src/main.py:126-193 | a start equal to the end never makes a range run |
| Cli.TodayTestNeverHolds | src/main.py:215 | comparing the `datetime` with today's `date` is false, even on today's date |
| Cli.ScheduleWith | src/main.py:213-236 | under any "today" test, two units per date |
| Cli.Schedule | src/main.py:213-236 | corrected (the test compares dates): two units per date |
| Cli.SeenBySameDate | src/main.py:215 | under the corrected test, today is seen exactly when it is one of the dates |
| Cli.ScheduleAsWritten | src/main.py:213-236 | as written (the test compares a `datetime` with a `date`): two units per date |
| Cli.AsWrittenKeepsFlag | src/main.py:205-236 | as written, unit i is range i % 2 + 1 of date i / 2, and every unit keeps the requested flag |
| Cli.UnitLogPath | src/main.py:223-228 | a unit's log path ends in `.log` and lies under the log directory unless the mode is an absolute path |
| Cli.ScheduleShape | src/main.py:213-236 | two units per date, in date order, range 1 before range 2; a unit is logged exactly when asked and no date up to its own is today |
| Cli.TodayNotLogged | src/main.py:215-216 | today's units are not logged, nor are those of any later date |
| Cli.BeforeTodayLogged | src/main.py:205-236 | a run that does not reach today logs every unit when asked |
| Cli.AsWrittenLogsToday | src/main.py:215-216 | as written, today's units are logged; corrected, they are not |
| Cli.AsWrittenAgreesBeforeToday | src/main.py:213-236 | away from today the two schedules agree |
| Cli.UnloggedSchedule | src/main.py:205-236 | without `--log_run` no unit of the schedule is logged |
| Cli.ChainAppend | src/main.py:213-236 | two runs of steps, the second starting where the first ends, make one run ending where the second ends |
| Cli.UnloggedStepsKeepLedger | src/main.py:213-236 | steps of units none of which is logged leave the ledger's rows and next id as they were |
| Cli.StepsKeepWellFormed | src/main.py:213-236 | every step, and so every run, keeps the table's invariant: no two rows share a key and ids grow below the next id |
| Cli.RunWithoutLogKeepsLedger | src/main.py:205-236 | a range or daily run without `--log_run` leaves the ledger as it found it, however far it got |
| Cli.ProcessUnit | src/main.py:223-236 | one unit raises exactly when it is logged and the table is missing. The call is a step taken (`StepTaken`): the disk and store end as `process_datewise` leaves them over the unit's records, with its outcome, record count and points file; a logged unit with the table present upserts exactly its row, with its log path; otherwise the ledger is unchanged |
| Cli.RunDay | src/main.py:222-236 | a date's two units run in order, each step taken from the state the previous one left, ending in the current disk, store and ledger; the day stops at a raise |
| Cli.RunDate | src/main.py:213-236 | one date extends the steps so far, as a chain from the run's start to the current state, with the units the schedule says |
| Cli.RunDates | src/main.py:213-236 | the calls made are exactly the schedule, or a prefix of it ending at a raise; each is a step taken from the state the previous one left, from the old disk, store and ledger to the new ones; with the table present nothing raises |
| Cli.StrippedLines | src/main.py:210-212 | the variables are no more than the lines |
| Cli.StrippedLinesSpec | src/main.py:212 | every variable is a non-empty stripped name coming from a line |
| Cli.StrippedLinesCount | src/main.py:212 | one variable per non-blank line |
| Cli.VariablesFromFile | src/main.py:210-212 | one variable per non-blank line of the file as text mode reads it, each non-empty and stripped |
| Cli.FileVariables | src/main.py:209-212 | a range run has variables exactly when a named variable file exists |
| Cli.DefaultDate | src/main.py:238-242 | a default exists unless today is 0001-01-01 |
| Cli.DefaultDateIsYesterday | src/main.py:239-242 | the default date reads back as the day before today |
| Cli.DailyDefaultIsYesterday | src/main.py:238-267 | with no date, the daily run is the two units of yesterday |
| Cli.LiveWarningFor | src/main.py:183-192 | the overrun warning comes exactly when elapsed > WAIT, with excess = WAIT − elapsed |
| Cli.RangeText | src/main.py:174 | `str(args.range or 1)` is never empty, and is the given range when one is given |
| Cli.LiveStop | src/main.py:151-168 | a failed or empty fetch exits with status 1, and nothing else does; a payload that does not parse, or a `process_and_write` that raises, ends the process uncaught |
| Cli.ProcessLive | src/main.py:151-168 | the live fetch, `clean_data` and `process_and_write` in live mode end as `LiveStop` says, leave the disk and store as `process_and_write` does, and return its count and the live audit path |
| Cli.LogRunWith | src/pipeline/run_tracker.py:53-113 | a `log_run` call writes the ledger exactly when its arguments bind with the ledger's own `db_path` and the table exists, and then upserts the row of the given values |
| Cli.RunLive | src/main.py:135-192 | corrected: the processing ends as `ProcessLive` says; a run past it finishes with the excess warning exactly when it does not log or the table exists, and a logging run upserts its row with the ten-argument call |
| Cli.RunLiveAsWritten | src/main.py:151-192 | as written: a logging run that gets past the processing crashes after the store and disk were written, with no ledger row and no warning; a run that does not log finishes as the corrected one does |
| Cli.Bind | src/pipeline/run_tracker.py:53-65 | ten positional arguments leave `db_path` at its default; an eleventh becomes `db_path`; any other count fails |
| Cli.LiveLogAsWrittenMisbinds | src/main.py:170-182 | as written, the range lands in `mode`, the namespace in `process_id`, and the points file path in `db_path`, never the ledger's file |
| Cli.LiveLogBindsIntended | src/main.py:170-182 | without the time argument, every column binds as named and the ledger's own file is used |
| Cli.RunRange | src/main.py:193-236 | an unparsable date crashes; start > end exits with status 1 and runs no unit; a missing variable file crashes; otherwise the units are the schedule of start..end, run as a chain of steps from the old disk, store and ledger to the new ones, with the variable file's variables; no exit path touches disk, store or ledger |
| Cli.RunDaily | src/main.py:243-267 | a date that parses runs its two units as the schedule says, as a chain of steps from the old disk, store and ledger to the new ones; any other date crashes and touches nothing |
| Cli.MainDaily | src/main.py:237-267 | `args.date` is filled with yesterday before any unit runs, so every row the units log serialises the namespace holding that date; then that date runs as `RunDaily` says |
| Cli.MainLive | src/main.py:135-150 | the live branch keeps the ledger's invariant and its table; the run itself is `RunLive` on the live log path and the namespace as it stands after the collapse |
| Cli.RunBranch | src/main.py:135-267 | after the collapse: a live run runs no unit; a range run ends as `RangeDone` says, with the namespace unchanged; a daily run fills in the date and ends as `DailyDone` says; a range or daily run is a chain of steps under the namespace as it then stands |
| Cli.RunMain | src/main.py:115-270 | the table exists afterwards; the dates are collapsed, with yesterday filled in for a dateless daily run; a daily date that parses runs its two units and any other crashes; in a range run, unparsable dates crash, start > end exits with status 1, a missing variable file crashes, and otherwise the run finishes with the schedule of start..end; a range or daily run is a chain of steps from the old disk, store and ledger to the new ones, whose rows serialise the namespace as `main` leaves it (collapsed, with the default date), which is the namespace when each `log_run` serialises `vars(args)` |

## Left out

- HTTP and XML (`requests.get`, `ElementTree.fromstring`): each attempt's outcome is a function of the request and the attempt number.
- Pauses (`time.sleep` in the fetch retries and between InfluxDB batches): not modelled; the fetch returns the number of pauses it would take.
- InfluxDB client internals (connection, `WriteOptions` retry and backoff, callbacks): a write is recorded or refused by the `Store`.
- gzip compression, `os.makedirs`, file encodings: `Disk.Retain` moves the content under the `.gz` name without compressing it.
- SQLite connection handling: the table is the `RunLedger` object. The `AUTOINCREMENT` counter is `nextId`, advanced by every upsert because SQLite draws the id before it checks the unique key.
- `json.dumps`: the `parameters` text is `Cli.Args.dumps`, an abstract function applied to the namespace as it is when a row is logged.
- Floating point: `float()` and `f"{val}"` are functions given to the model. The live-mode excess uses exact reals.
- Timestamps: the `Timelogged` parse, pytz localisation and `ts.timestamp()` are one function to epoch seconds. The live time string and the `DATE_FORMAT`/`DATE_FORMAT_FILENAME` renderings are functions.
- `DATE_FORMAT` is taken to be `%m-%d-%Y`: `fetch_api_data` splits the text on `-` into month, day and year, so the pipeline works only with that format.
- `ast.literal_eval`: a partial parser given to the model.
- Logging configuration, `load_dotenv`, `setup_logging` and the YAML loading of the mapping tables: the tables are a value.
- argparse: `Cli.Args` is built from already-parsed values, and the `choices` check on `--mode` is not modelled. The `--debug`, `--delay`, `--use-db-params`, `--db-host` and `--db-org` options, which the modelled code never reads or changes, are one opaque `others` text of the namespace.
- FieldMap.GetNumeric: an integer too large for a double (2**1024 and above, about 1.8e308) makes `float()` raise `OverflowError`. `get_numeric` does not catch it, so it would end `build_points`; the model converts every integer exactly.
- FieldMap.GetNumericNumbers: states the exact conversion for every integer, so it leaves out the same overflow.
- Calendar.ParseDate: accepts ASCII digits only. In Python's `strptime`, `\d` in the `%d` and `%Y` patterns also matches other Unicode decimal digits (the day's second digit and all four year digits), which `int()` then converts; the month pattern is ASCII in both.
- Common.ParseInt: accepts ASCII digits with an optional sign and surrounding white space; Python's `int()` also accepts underscores and non-ASCII digits.
- Cli.RunMain: the live branch's outcome is stated by `Cli.RunLive`, not repeated in the contracts of `RunMain`, `RunBranch` or `MainLive`.
- Cli.MainDaily: the `else` branch that reports "Date is required" is unreachable, because the default date is never empty; the model has no such branch.
- The root `main.py` and `src/pipeline/write_to_file.py` are not part of this model.

## Findings

| source | as written | input that shows it | evidently intended | confidence | as-written member | corrected member |
|---|---|---|---|---|---|---|
| src/main.py:170-182 | the live `log_run` call passes `time_str_file` as an extra third argument, 11 in all. Every later argument binds one parameter late, and `points_file_path` becomes `db_path`. `os.path.abspath(None)` then raises, or the `.txt.gz` audit copy is not a database. The exception is not caught, so the process ends after the store was written, without a ledger row or the closing warning. | `--mode live --log-run true` with a successful fetch: `db_path` is `None` or `output/live_….txt.gz`, never `db/run_metadata.db` | the same ten-argument call `process_datewise` makes, upserting the run into the ledger | high; not executed | Cli.RunLiveAsWritten | Cli.RunLive |
| src/main.py:215 | `dt == datetime.now(utc).date()` (here and at line 247) compares the `datetime` from `strptime` with a `date`, which is always false, so today's units are logged | `--date` set to today's UTC date with `--log-run true` | stop logging at today's date (and, in range mode, for the rest of the run) | high; not executed | Cli.AsWrittenLogsToday | Cli.RunDates |

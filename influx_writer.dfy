/** The record pipeline of `src/pipeline/influx_writer.py`:
    `write_points_to_txt` (append or overwrite a text file),
    `process_and_write` (filter each record, parse its timestamp, build its
    line-protocol text, collect it in a temporary file, push the file to the
    store and keep an audit copy) and `should_write_point`.  The batching
    loop of `write_to_influxdb` is module `Batches`.

    The file system is a `Disk` object mapping paths to contents; the
    store is a `Batches.Store`.  Timestamp parsing (`strptime` with the
    `%m/%d/%Y %I:%M:%S %p` format, then localisation to UTC) and the
    file-name time format are the oracles `parseTime` and `formatTime`. */
module InfluxWriter {
  import opened Common
  import opened FieldMap
  import opened Points
  import opened Batches
  import opened Utils

  const TIMELOGGED: string := "Timelogged"
  const LIVE: string := "live"
  const DAILY: string := "daily"
  /** `process_and_write` pushes its file with `batch_size=5000`. */
  const PUSH_BATCH_SIZE: int := 5000

  // ---------------------------------------------------------------------
  // write_points_to_txt

  /** The file system after `write_points_to_txt(text, …, mode=mode,
      filename=name)`: an existing file is appended to unless the mode is
      `"live"`; otherwise the file is (re)created holding `text`.  No other
      file changes. */
  function WriteTxt(files: map<string, string>, name: string, mode: string, text: string): (r: map<string, string>)
    ensures r.Keys == files.Keys + {name}
    ensures forall f :: f in files && f != name ==> r[f] == files[f]
  {
    if name in files && mode != LIVE then files[name := files[name] + text]
    else files[name := text]
  }

  /** Successive calls writing `texts` to the same file. */
  function WriteAll(files: map<string, string>, name: string, mode: string, texts: seq<string>): (r: map<string, string>)
    ensures r.Keys == files.Keys + (if texts == [] then {} else {name})
    ensures forall f :: f in files && f != name ==> r[f] == files[f]
  {
    if texts == [] then files
    else WriteTxt(WriteAll(files, name, mode, texts[..|texts| - 1]), name, mode, texts[|texts| - 1])
  }

  lemma WriteAllSnoc(files: map<string, string>, name: string, mode: string, texts: seq<string>, t: string)
    ensures WriteAll(files, name, mode, texts + [t]) == WriteTxt(WriteAll(files, name, mode, texts), name, mode, t)
  {
    assert (texts + [t])[..|texts|] == texts;
  }

  /** In live mode every call overwrites: the file ends up holding only
      the last text written. */
  lemma LiveKeepsLast(files: map<string, string>, name: string, texts: seq<string>)
    requires texts != []
    ensures WriteAll(files, name, LIVE, texts)[name] == texts[|texts| - 1]
  {
  }

  /** In any other mode the file keeps growing: it holds what it held
      before, followed by every text written, in order. */
  lemma {:induction false} OtherModesAppend(files: map<string, string>, name: string, mode: string, texts: seq<string>)
    requires mode != LIVE && (name in files || texts != [])
    ensures WriteAll(files, name, mode, texts)[name] ==
              (if name in files then files[name] else "") + Flatten(texts)
  {
    if texts != [] {
      var init := texts[..|texts| - 1];
      if name in files || init != [] {
        OtherModesAppend(files, name, mode, init);
      }
      var before := if name in files then files[name] else "";
      assert before + Flatten(init) + texts[|texts| - 1] == before + (Flatten(init) + texts[|texts| - 1]);
    }
  }

  /** The file system. */
  class Disk {
    var files: map<string, string>

    constructor (files: map<string, string>)
      ensures this.files == files
    {
      this.files := files;
    }

    /** `write_points_to_txt(text, …, mode=mode, filename=name)`. */
    method WritePointsToTxt(text: string, mode: string, name: string)
      modifies this
      ensures files == WriteTxt(old(files), name, mode, text)
    {
      if name in files && mode != LIVE {
        files := files[name := files[name] + text];
      } else {
        files := files[name := text];
      }
    }

    /** `os.rename(tmp, final)`, gzip `final` to `final + ".gz"`,
        `os.remove(final)`.  The compression itself is not modelled: the
        archive holds the text it was made from. */
    method Retain(tmp: string, final: string)
      modifies this
      requires tmp in files
      ensures files == RetainFiles(old(files), tmp, final)
    {
      var content := files[tmp];
      files := (files - {tmp})[final := content];
      files := files[final + ".gz" := content];
      files := files - {final};
    }
  }

  /** The file system after the rename, gzip and remove. */
  function RetainFiles(files: map<string, string>, tmp: string, final: string): (r: map<string, string>)
    requires tmp in files
    ensures final + ".gz" in r && r[final + ".gz"] == files[tmp]
    ensures final !in r && (tmp != final + ".gz" ==> tmp !in r)
    ensures forall f :: f in files && f != tmp && f != final && f != final + ".gz" ==> f in r && r[f] == files[f]
  {
    assert |final + ".gz"| != |final|;
    ((files - {tmp})[final := files[tmp]])[final + ".gz" := files[tmp]] - {final}
  }

  // ---------------------------------------------------------------------
  // Per-record preparation

  /** The record filter: every key when no variable list is given,
      otherwise the listed keys and `"Timelogged"`. */
  predicate Allowed(variables: Option<seq<string>>, key: string)
  {
    variables.None? || key in variables.value || key == TIMELOGGED
  }

  /** `{k: v for k, v in record.items() if k in variables_list or
      k == "Timelogged"}`, keeping the record's order. */
  function FilterRecord(rec: Record, variables: Option<seq<string>>): (r: Record)
    ensures |r| <= |rec|
  {
    if rec == [] then []
    else
      var last := rec[|rec| - 1];
      FilterRecord(rec[..|rec| - 1], variables) + (if Allowed(variables, last.0) then [last] else [])
  }

  /** A pair survives the filter exactly when it is in the record and its
      key is allowed; without a variable list the record is unchanged. */
  lemma {:induction false} FilterRecordSpec(rec: Record, variables: Option<seq<string>>)
    ensures forall p :: p in FilterRecord(rec, variables) <==> p in rec && Allowed(variables, p.0)
    ensures variables.None? ==> FilterRecord(rec, variables) == rec
  {
    if rec != [] {
      var init := rec[..|rec| - 1];
      FilterRecordSpec(init, variables);
      assert rec == init + [rec[|rec| - 1]];
    }
  }

  /** The first position of `key` in the record (`record[key]` on a
      dictionary, whose keys are unique). */
  function KeyAt(rec: Record, key: string): (k: Option<nat>)
    ensures k.Some? ==> k.value < |rec| && rec[k.value].0 == key
    ensures k.Some? ==> forall j :: 0 <= j < k.value ==> rec[j].0 != key
    ensures k.None? ==> forall j :: 0 <= j < |rec| ==> rec[j].0 != key
  {
    if rec == [] then None
    else if rec[0].0 == key then Some(0)
    else match KeyAt(rec[1..], key)
      case None => None
      case Some(k) => Some(k + 1)
  }

  /** A record ready for `build_points`: the record, the timestamp handed
      to it, and the UTC time `dt_utc` this record assigned, if any. */
  datatype Prepared = Prepared(rec: Record, ts: Option<int>, parsed: Option<int>)

  /** The timestamp step: a `Timelogged` text that parses is replaced, in
      place, by the UTC time; a value that does not parse is left as it is
      (the failure is only logged).  The timestamp handed on is
      `record.get("Timelogged")`, usable only when it is a time value. */
  function StampRecord(rec: Record, parseTime: string -> Option<int>): (p: Prepared)
    ensures |p.rec| == |rec|
    ensures p.parsed.Some? ==> p.ts == p.parsed
  {
    match KeyAt(rec, TIMELOGGED)
    case None => Prepared(rec, None, None)
    case Some(i) =>
      var v := rec[i].1;
      if v.Str? && parseTime(v.s).Some? then
        var e := parseTime(v.s).value;
        Prepared(rec[i := (TIMELOGGED, Timestamp(e))], Some(e), Some(e))
      else Prepared(rec, if v.Timestamp? then Some(v.epoch) else None, None)
  }

  /** The oracles the pipeline depends on. */
  datatype Env = Env(cfg: Config, parseTime: string -> Option<int>, formatTime: int -> string)

  function Prepare(env: Env, variables: Option<seq<string>>, rec: Record): Prepared
  {
    StampRecord(FilterRecord(rec, variables), env.parseTime)
  }

  /** The line-protocol text of one record. */
  function RecordPoints(env: Env, variables: Option<seq<string>>, rec: Record): Result<string, BuildError>
  {
    var p := Prepare(env, variables, rec);
    SpecPoints(env.cfg, p.rec, p.ts)
  }

  /** The texts the loop writes, up to the first record whose points
      cannot be built (the exception leaves `process_and_write`), and
      whether that happened. */
  function RecordTexts(env: Env, variables: Option<seq<string>>, recs: seq<Record>): (seq<string>, bool)
  {
    if recs == [] then ([], false)
    else
      var (texts, failed) := RecordTexts(env, variables, recs[..|recs| - 1]);
      if failed then (texts, true)
      else match RecordPoints(env, variables, recs[|recs| - 1])
        case Err(_) => (texts, true)
        case Ok(s) => (texts + [s], false)
  }

  /** `dt_utc` after the loop: the time parsed from the last record whose
      timestamp parsed. */
  function LastParsed(env: Env, variables: Option<seq<string>>, recs: seq<Record>): Option<int>
  {
    if recs == [] then None
    else
      var p := Prepare(env, variables, recs[|recs| - 1]);
      if p.parsed.Some? then p.parsed else LastParsed(env, variables, recs[..|recs| - 1])
  }

  /** Once a record has failed, the rest of the list changes nothing. */
  lemma {:induction false} FailureSticks(env: Env, variables: Option<seq<string>>, recs: seq<Record>, i: nat)
    requires i <= |recs| && RecordTexts(env, variables, recs[..i]).1
    ensures RecordTexts(env, variables, recs) == RecordTexts(env, variables, recs[..i])
    decreases |recs| - i
  {
    if i < |recs| {
      assert recs[..i + 1][..i] == recs[..i];
      FailureSticks(env, variables, recs, i + 1);
    } else {
      assert recs[..i] == recs;
    }
  }

  /** Without failures the loop writes one text per record. */
  lemma {:induction false} OneTextPerRecord(env: Env, variables: Option<seq<string>>, recs: seq<Record>)
    ensures var (texts, failed) := RecordTexts(env, variables, recs);
      !failed ==> |texts| == |recs|
    ensures var (texts, failed) := RecordTexts(env, variables, recs);
      !failed ==> forall i :: 0 <= i < |recs| ==> RecordPoints(env, variables, recs[i]) == Ok(texts[i])
  {
    if recs != [] {
      var init := recs[..|recs| - 1];
      OneTextPerRecord(env, variables, init);
      var (texts, failed) := RecordTexts(env, variables, recs);
      if !failed {
        forall i | 0 <= i < |recs| - 1
          ensures RecordPoints(env, variables, recs[i]) == Ok(texts[i])
        {
          assert recs[i] == init[i];
        }
      }
    }
  }

  /** One more record: the loop's texts and `dt_utc` after `i + 1`
      records, from those after `i`. */
  lemma LoopStep(env: Env, variables: Option<seq<string>>, recs: seq<Record>, i: nat, texts: seq<string>)
    requires i < |recs| && RecordTexts(env, variables, recs[..i]) == (texts, false)
    ensures var r := RecordPoints(env, variables, recs[i]);
      RecordTexts(env, variables, recs[..i + 1]) == if r.Err? then (texts, true) else (texts + [r.value], false)
    ensures var p := Prepare(env, variables, recs[i]);
      LastParsed(env, variables, recs[..i + 1]) ==
        if p.parsed.Some? then p.parsed else LastParsed(env, variables, recs[..i])
  {
    assert recs[..i + 1][..i] == recs[..i];
  }

  /** One iteration: prepare the record, build its points and write them
      to the temporary file. */
  method WriteRecord(env: Env, disk: Disk, rec: Record, mode: string, tmp: string,
                     variables: Option<seq<string>>) returns (ok: bool, parsed: Option<int>, text: string)
    modifies disk
    ensures var r := RecordPoints(env, variables, rec);
      && ok == r.Ok?
      && (ok ==> text == r.value && disk.files == WriteTxt(old(disk.files), tmp, mode, text))
      && (!ok ==> disk.files == old(disk.files))
    ensures parsed == Prepare(env, variables, rec).parsed
  {
    var p := Prepare(env, variables, rec);
    parsed := p.parsed;
    var r := BuildPoints(env.cfg, p.rec, p.ts);
    if r.Err? {
      return false, parsed, "";
    }
    text := r.value;
    disk.WritePointsToTxt(text, mode, tmp);
    ok := true;
  }

  /** One iteration of the loop of `process_and_write` over
      `cleaned_list`, in terms of the records handled so far: after the
      `i + 1`-th record the file holds the texts of the first `i + 1`
      records, or, when its points cannot be built, the whole loop has
      failed with the file as it was. */
  method LoopBody(env: Env, disk: Disk, recs: seq<Record>, i: nat, mode: string, tmp: string,
                  variables: Option<seq<string>>, ghost files0: map<string, string>,
                  ghost texts: seq<string>, last: Option<int>)
    returns (ok: bool, last': Option<int>, ghost texts': seq<string>)
    modifies disk
    requires i < |recs| && RecordTexts(env, variables, recs[..i]) == (texts, false)
    requires disk.files == WriteAll(files0, tmp, mode, texts)
    requires last == LastParsed(env, variables, recs[..i])
    ensures ok ==> && RecordTexts(env, variables, recs[..i + 1]) == (texts', false)
                   && disk.files == WriteAll(files0, tmp, mode, texts')
                   && last' == LastParsed(env, variables, recs[..i + 1])
    ensures !ok ==> && RecordTexts(env, variables, recs) == (texts, true)
                    && disk.files == WriteAll(files0, tmp, mode, texts)
  {
    LoopStep(env, variables, recs, i, texts);
    var parsed, text;
    ok, parsed, text := WriteRecord(env, disk, recs[i], mode, tmp, variables);
    last' := if parsed.Some? then parsed else last;
    if !ok {
      FailureSticks(env, variables, recs, i + 1);
      texts' := texts;
      return;
    }
    WriteAllSnoc(files0, tmp, mode, texts, text);
    texts' := texts + [text];
  }

  /** The loop of `process_and_write` over `cleaned_list`: prepare each
      record, build its points and write them to the temporary file.  It
      stops at the first record whose points cannot be built. */
  method WriteRecords(env: Env, disk: Disk, recs: seq<Record>, mode: string, tmp: string,
                      variables: Option<seq<string>>) returns (ok: bool, last: Option<int>)
    modifies disk
    ensures var (texts, failed) := RecordTexts(env, variables, recs);
      && ok == !failed
      && disk.files == WriteAll(old(disk.files), tmp, mode, texts)
    ensures ok ==> last == LastParsed(env, variables, recs)
  {
    ghost var texts: seq<string> := [];
    last := None;
    var i := 0;
    while i < |recs|
      invariant 0 <= i <= |recs|
      invariant RecordTexts(env, variables, recs[..i]) == (texts, false)
      invariant disk.files == WriteAll(old(disk.files), tmp, mode, texts)
      invariant last == LastParsed(env, variables, recs[..i])
    {
      var ok1;
      ok1, last, texts := LoopBody(env, disk, recs, i, mode, tmp, variables, old(disk.files), texts, last);
      if !ok1 {
        return false, last;
      }
      i := i + 1;
    }
    assert recs[..i] == recs;
    ok := true;
  }

  // ---------------------------------------------------------------------
  // process_and_write

  /** The flags of the command-line namespace `process_and_write` reads. */
  datatype WriteFlags = WriteFlags(dbWrite: bool, override: bool, retainFile: bool)

  /** The store is written only when both `db_write` and `override` are
      set. */
  predicate PushGate(args: Option<WriteFlags>)
    ensures PushGate(args) ==> args.Some?
  {
    args.Some? && args.value.dbWrite && args.value.override
  }

  /** The audit copy is kept only when `retain_file` is set. */
  predicate RetainGate(args: Option<WriteFlags>)
    ensures RetainGate(args) ==> args.Some?
  {
    args.Some? && args.value.retainFile
  }

  /** `os.path.join(ouput_dir, f"tmp_{os.getpid()}.txt")`. */
  function TmpPath(outDir: string, pid: int): (r: string)
    ensures StartsWith(r, outDir) && EndsWith(r, "tmp_" + IntToString(pid) + ".txt")
  {
    var name := "tmp_" + IntToString(pid) + ".txt";
    assert name[0] == 't';
    PathJoin(outDir, name)
  }

  /** The audit copy's name before compression:
      `output/date_{date}_Range{range}.txt` in daily mode,
      `output/live_{date}_{time}.txt` in any other mode. */
  function RetainedName(mode: string, date: string, time: Option<string>, range: int): (p: string)
    ensures StartsWith(p, "output/") && EndsWith(p, ".txt")
  {
    var name := if mode == DAILY then "date_" + date + "_Range" + IntToString(range) + ".txt"
                else "live_" + date + "_" + Show(time) + ".txt";
    assert name[0] != '/';
    assert name[|name| - 4..] == ".txt";
    PathJoin("output", name)
  }

  /** The path `process_and_write` returns for the audit copy: in any
      mode it lies in `output/` and ends in `.txt.gz`. */
  function RetainedPath(mode: string, date: string, time: Option<string>, range: int): (p: string)
    ensures StartsWith(p, "output/") && EndsWith(p, ".txt.gz")
  {
    var m := RetainedName(mode, date, time, range);
    AffixesExtend(m, "output/", ".txt", ".gz");
    assert ".txt" + ".gz" == ".txt.gz";
    m + ".gz"
  }

  /** A daily copy never takes the name of a live one. */
  lemma RetainedPathsDistinct(date: string, time: Option<string>, range: int, date': string, time': Option<string>, range': int)
    ensures RetainedPath(DAILY, date, time, range) != RetainedPath(LIVE, date', time', range')
  {
    var p := RetainedName(DAILY, date, time, range);
    var q := RetainedName(LIVE, date', time', range');
    assert p[7] == 'd' && q[7] == 'l';
    assert (p + ".gz")[7] == p[7] && (q + ".gz")[7] == q[7];
  }

  datatype PipelineError =
    | BuildFailed   // `build_points` raised (no usable timestamp)
    | MissingFile   // the temporary file does not exist (no record was written)
    | StoreFailed   // the store refused a batch
    | NoTimestamp   // live mode: `dt_utc` was never assigned

  /** `(record_count, points_file_final, time_str)`. */
  datatype Processed = Processed(count: nat, pointsFile: Option<string>, timeStr: Option<string>)

  /** The store after `write_to_influxdb` pushed `text`: the accepted
      batches, the calls made, and whether every batch was accepted. */
  function PushedBatches(text: string): seq<seq<string>>
  {
    Batches.Batches(ReadLines(text), PUSH_BATCH_SIZE)
  }

  /** The files on disk, the text the store accepted and the number of
      writes it was asked for: the state `process_and_write` changes. */
  datatype Side = Side(files: map<string, string>, written: seq<string>, calls: nat)

  /** The state after the second half of `process_and_write`, once the
      temporary file `tmp` holds the points: when the store is written,
      the batches of that file are pushed until one is refused; when the
      file is kept (and every push was accepted), it is renamed to `final`
      and compressed.  The store only ever grows. */
  function PushedSide(refused: set<nat>, args: Option<WriteFlags>, tmp: string, final: string,
                      before: Side): (after: Side)
    ensures before.written <= after.written && before.calls <= after.calls
    ensures !PushGate(args) ==> after.written == before.written && after.calls == before.calls
  {
    var pushes := PushGate(args) && tmp in before.files;
    var bs := if pushes then PushedBatches(before.files[tmp]) else [];
    var k := Accepted(refused, before.calls, |bs|);
    var retains := (PushGate(args) ==> tmp in before.files && k == |bs|) && RetainGate(args) && tmp in before.files;
    Side(if retains then RetainFiles(before.files, tmp, final) else before.files,
         before.written + JoinAll(bs[..k]),
         before.calls + Attempts(k, |bs|))
  }

  /** The second half returns exactly when the temporary file exists
      wherever it is needed and every batch pushed was accepted. */
  predicate PushSucceeds(refused: set<nat>, args: Option<WriteFlags>, tmp: string,
                         files: map<string, string>, calls: nat)
  {
    var bs := if tmp in files then PushedBatches(files[tmp]) else [];
    && (PushGate(args) ==> tmp in files && Accepted(refused, calls, |bs|) == |bs|)
    && (RetainGate(args) ==> tmp in files)
  }

  /** The state `process_and_write` leaves behind over `cleaned`, from the
      state `before` it found: the temporary file holds the points of
      every record up to the first that cannot be built; when none failed,
      the second half (`PushedSide`) follows.  The store only ever grows,
      and it is untouched when a record failed or the store is not
      written. */
  function ProcessedSide(env: Env, refused: set<nat>, cleaned: seq<Record>, date: string,
                         time: Option<string>, range: int, mode: string, args: Option<WriteFlags>,
                         outDir: string, pid: int, variables: Option<seq<string>>, before: Side): (after: Side)
    ensures before.written <= after.written && before.calls <= after.calls
    ensures RecordTexts(env, variables, cleaned).1 || !PushGate(args) ==>
              after.written == before.written && after.calls == before.calls
  {
    var tmp := TmpPath(outDir, pid);
    var (texts, failed) := RecordTexts(env, variables, cleaned);
    var wrote := Side(WriteAll(before.files, tmp, mode, texts), before.written, before.calls);
    if failed then wrote else PushedSide(refused, args, tmp, RetainedName(mode, date, time, range), wrote)
  }

  /** `process_and_write` returns (rather than raises) exactly when every
      record's points were built, the second half succeeded, and in live
      mode some record carried a timestamp. */
  predicate ProcessSucceeds(env: Env, refused: set<nat>, cleaned: seq<Record>, mode: string,
                            args: Option<WriteFlags>, outDir: string, pid: int,
                            variables: Option<seq<string>>, files0: map<string, string>, calls0: nat)
  {
    var tmp := TmpPath(outDir, pid);
    var (texts, failed) := RecordTexts(env, variables, cleaned);
    && !failed
    && PushSucceeds(refused, args, tmp, WriteAll(files0, tmp, mode, texts), calls0)
    && (mode == LIVE ==> LastParsed(env, variables, cleaned).Some?)
  }

  /** The second half of `process_and_write`: `write_to_influxdb` on the
      temporary file when `db_write` and `override` are set, then the
      audit copy when `retain_file` is set.  A missing temporary file
      raises `FileNotFoundError`; a refused batch raises. */
  method PushAndRetain(disk: Disk, store: Store, tmp: string, final: string, args: Option<WriteFlags>)
    returns (err: Option<PipelineError>)
    modifies disk, store
    ensures Side(disk.files, store.written, store.calls) ==
              PushedSide(store.refused, args, tmp, final, Side(old(disk.files), old(store.written), old(store.calls)))
    ensures err.None? <==> PushSucceeds(store.refused, args, tmp, old(disk.files), old(store.calls))
    ensures PushGate(args) && tmp !in old(disk.files) ==> err == Some(MissingFile)
    ensures var bs := if tmp in old(disk.files) then PushedBatches(old(disk.files)[tmp]) else [];
      PushGate(args) && tmp in old(disk.files) && Accepted(store.refused, old(store.calls), |bs|) < |bs| ==>
        err == Some(StoreFailed)
  {
    if PushGate(args) {
      if tmp !in disk.files {
        return Some(MissingFile);
      }
      var wrote, pushed := WriteToInfluxDB(disk.files[tmp], PUSH_BATCH_SIZE, store);
      if !pushed {
        return Some(StoreFailed);
      }
    }
    if RetainGate(args) {
      if tmp !in disk.files {
        return Some(MissingFile);
      }
      disk.Retain(tmp, final);
    }
    err := None;
  }

  /** `process_and_write(cleaned_list, date_str_file, time_str_file, range,
      mode, args, ouput_dir, …, variables_list)`. */
  method ProcessAndWrite(env: Env, disk: Disk, store: Store, cleaned: seq<Record>, date: string,
                         time: Option<string>, range: int, mode: string, args: Option<WriteFlags>,
                         outDir: string, pid: int, variables: Option<seq<string>>)
    returns (r: Result<Processed, PipelineError>)
    modifies disk, store
    ensures Side(disk.files, store.written, store.calls) ==
              ProcessedSide(env, store.refused, cleaned, date, time, range, mode, args, outDir, pid, variables,
                            Side(old(disk.files), old(store.written), old(store.calls)))
    ensures r.Ok? <==> ProcessSucceeds(env, store.refused, cleaned, mode, args, outDir, pid, variables,
                                       old(disk.files), old(store.calls))
    ensures var tmp := TmpPath(outDir, pid);
      var (texts, failed) := RecordTexts(env, variables, cleaned);
      var files := WriteAll(old(disk.files), tmp, mode, texts);
      var bs := if tmp in files then PushedBatches(files[tmp]) else [];
      && (failed ==> r == Err(BuildFailed))
      && (!failed && PushGate(args) && tmp !in files ==> r == Err(MissingFile))
      && (!failed && PushGate(args) && tmp in files && Accepted(store.refused, old(store.calls), |bs|) < |bs| ==>
            r == Err(StoreFailed))
    ensures r.Ok? ==> r.value == Processed(|cleaned|,
                        if RetainGate(args) then Some(RetainedPath(mode, date, time, range)) else None,
                        if mode == LIVE then Some(env.formatTime(LastParsed(env, variables, cleaned).value)) else None)
  {
    var tmp := TmpPath(outDir, pid);
    var ok, last := WriteRecords(env, disk, cleaned, mode, tmp, variables);
    if !ok {
      return Err(BuildFailed);
    }
    var final := RetainedName(mode, date, time, range);
    var err := PushAndRetain(disk, store, tmp, final, args);
    if err.Some? {
      return Err(err.value);
    }
    var pointsFile: Option<string> := if RetainGate(args) then Some(final + ".gz") else None;
    var timeStr: Option<string> := None;
    if mode == LIVE {
      if last.None? {
        return Err(NoTimestamp);
      }
      timeStr := Some(env.formatTime(last.value));
    }
    r := Ok(Processed(|cleaned|, pointsFile, timeStr));
  }

  /** `should_write_point(point, args)`: the stub lets every point
      through. */
  function ShouldWritePoint(point: Record, args: WriteFlags): (write: bool)
    ensures write
  {
    true
  }
}

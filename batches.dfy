/** The batching loop of `write_to_influxdb` (`src/pipeline/influx_writer.py`):
    the line-protocol file is read line by line, its non-blank lines are
    collected into batches of `batch_size`, and each batch is sent to the store
    as one write of the lines joined by newlines.

    The InfluxDB client is a `Store` that records the batches it accepts and
    may refuse any write; a refused write is the exception the client raises,
    which the function re-raises. */
module Batches {
  import opened Common

  // ---------------------------------------------------------------------
  // Reading a file line by line

  /** The length of the first line of `text`: up to and including the first
      newline, or all of `text` when it has none. */
  function LineEnd(text: string): (k: nat)
    requires text != []
    ensures 1 <= k <= |text|
    ensures k < |text| ==> text[k - 1] == '\n'
    ensures forall j :: 0 <= j < k - 1 ==> text[j] != '\n'
    decreases |text|
  {
    if text[0] == '\n' || |text| == 1 then 1 else 1 + LineEnd(text[1..])
  }

  /** `for line in file`: each line keeps its newline; a last piece without
      one is a line too. */
  function FileLines(text: string): seq<string>
    decreases |text|
  {
    if text == [] then []
    else
      var k := LineEnd(text);
      [text[..k]] + FileLines(text[k..])
  }

  /** Text mode's universal newlines: `"\r\n"` and a lone `"\r"` are read
      as `"\n"`. */
  function TranslateNewlines(text: string): (r: string)
    ensures '\r' !in r
    ensures |r| <= |text|
    decreases |text|
  {
    if text == [] then []
    else if text[0] == '\r' then
      "\n" + TranslateNewlines(if |text| > 1 && text[1] == '\n' then text[2..] else text[1..])
    else [text[0]] + TranslateNewlines(text[1..])
  }

  /** Text without a carriage return reads back as it was written. */
  lemma {:induction false} TranslateNewlinesKeeps(text: string)
    requires '\r' !in text
    ensures TranslateNewlines(text) == text
    decreases |text|
  {
    if text != [] {
      assert '\r' !in text[1..] by {
        assert forall j :: 0 <= j < |text[1..]| ==> text[1..][j] == text[j + 1];
      }
      TranslateNewlinesKeeps(text[1..]);
      assert text == [text[0]] + text[1..];
    }
  }

  /** Translating twice is translating once. */
  lemma TranslateNewlinesIdempotent(text: string)
    ensures TranslateNewlines(TranslateNewlines(text)) == TranslateNewlines(text)
  {
    TranslateNewlinesKeeps(TranslateNewlines(text));
  }

  /** Iterating a file opened in text mode: its lines after newline
      translation. */
  function ReadLines(text: string): (r: seq<string>)
    ensures Flatten(r) == TranslateNewlines(text)
  {
    FileLinesFlatten(TranslateNewlines(text));
    FileLines(TranslateNewlines(text))
  }

  lemma FlattenCons<T>(x: seq<T>, ss: seq<seq<T>>)
    ensures Flatten([x] + ss) == x + Flatten(ss)
  {
    FlattenAppend([x], ss);
    assert [x][..0] == [];
  }

  /** Reading the lines back to back gives the file. */
  lemma {:induction false} FileLinesFlatten(text: string)
    ensures Flatten(FileLines(text)) == text
    decreases |text|
  {
    if text != [] {
      var k := LineEnd(text);
      var head, rest := text[..k], text[k..];
      assert FileLines(text) == [head] + FileLines(rest);
      FileLinesFlatten(rest);
      FlattenCons(head, FileLines(rest));
      assert head + rest == text;
    }
  }

  /** A line as `for line in file` yields it: non-empty, a newline at most
      at its end, and a newline there unless it is the last line. */
  predicate IsLine(l: string, last: bool)
  {
    && l != []
    && (forall j :: 0 <= j < |l| - 1 ==> l[j] != '\n')
    && (!last ==> l[|l| - 1] == '\n')
  }

  /** Every line is non-empty, holds a newline at most at its end, and every
      line but the last ends with one. */
  lemma {:induction false} FileLinesShape(text: string)
    ensures var ls := FileLines(text);
            forall i :: 0 <= i < |ls| ==> IsLine(ls[i], i == |ls| - 1)
    decreases |text|
  {
    if text != [] {
      var k := LineEnd(text);
      FileLinesShape(text[k..]);
      assert FileLines(text) == [text[..k]] + FileLines(text[k..]);
      assert FileLines(text[k..]) == [] <==> k == |text|;
      LinesCons(text[..k], FileLines(text[k..]));
    }
  }

  /** A line in front of well-formed lines keeps them well formed. */
  lemma LinesCons(head: string, rest: seq<string>)
    requires IsLine(head, rest == [])
    requires forall i :: 0 <= i < |rest| ==> IsLine(rest[i], i == |rest| - 1)
    ensures var ls := [head] + rest;
            forall i :: 0 <= i < |ls| ==> IsLine(ls[i], i == |ls| - 1)
  {
    var ls := [head] + rest;
    forall i | 1 <= i < |ls|
      ensures IsLine(ls[i], i == |ls| - 1)
    {
      assert ls[i] == rest[i - 1];
    }
  }

  // ---------------------------------------------------------------------
  // The batches the loop forms

  /** `line.rstrip("\n")`: every trailing newline removed. */
  function RStripNewlines(s: string): (r: string)
    ensures |r| <= |s| && r == s[..|r|]
    ensures r == [] || r[|r| - 1] != '\n'
    ensures forall j :: |r| <= j < |s| ==> s[j] == '\n'
  {
    if s != [] && s[|s| - 1] == '\n' then RStripNewlines(s[..|s| - 1]) else s
  }

  /** The loop's state: the batches flushed so far and the open batch. */
  datatype Scan = Scan(flushed: seq<seq<string>>, batch: seq<string>)

  /** One iteration: a non-blank line joins the open batch, and a batch that
      has reached `size` is flushed. */
  function Feed(st: Scan, line: string, size: int): Scan
  {
    var b := if IsBlank(line) then st.batch else st.batch + [RStripNewlines(line)];
    if |b| >= size then Scan(st.flushed + [b], []) else Scan(st.flushed, b)
  }

  /** The state after the loop has read `lines`. */
  function ScanLines(lines: seq<string>, size: int): Scan
  {
    if lines == [] then Scan([], [])
    else Feed(ScanLines(lines[..|lines| - 1], size), lines[|lines| - 1], size)
  }

  /** Every batch written: those flushed in the loop, then the remainder when
      it is not empty. */
  function Batches(lines: seq<string>, size: int): seq<seq<string>>
  {
    var st := ScanLines(lines, size);
    if st.batch != [] then st.flushed + [st.batch] else st.flushed
  }

  /** The lines that reach a batch: the non-blank ones, newlines removed, in
      order. */
  function NonBlankLines(lines: seq<string>): seq<string>
  {
    if lines == [] then []
    else
      var last := lines[|lines| - 1];
      NonBlankLines(lines[..|lines| - 1]) + (if IsBlank(last) then [] else [RStripNewlines(last)])
  }

  /** What a line contributes to the batches: nothing when it is blank,
      itself without its newline otherwise. */
  function LineContribution(line: string): seq<string>
  {
    if IsBlank(line) then [] else [RStripNewlines(line)]
  }

  /** One iteration appends the line's contribution to the lines held so far,
      flushed or open. */
  lemma FeedCovers(st: Scan, line: string, size: int)
    ensures var st' := Feed(st, line, size);
            Flatten(st'.flushed) + st'.batch == Flatten(st.flushed) + st.batch + LineContribution(line)
  {
    var b := if IsBlank(line) then st.batch else st.batch + [RStripNewlines(line)];
    var st' := Feed(st, line, size);
    assert Flatten(st'.flushed) + st'.batch == Flatten(st.flushed) + b by {
      if |b| >= size {
        assert st' == Scan(st.flushed + [b], []);
        FlattenSnoc(st.flushed, b);
      } else {
        assert st' == Scan(st.flushed, b);
      }
    }
    var x, c := Flatten(st.flushed), LineContribution(line);
    assert b == st.batch + c;
    assert x + (st.batch + c) == x + st.batch + c;
  }

  lemma {:induction false} ScanCovers(lines: seq<string>, size: int)
    ensures var st := ScanLines(lines, size);
            Flatten(st.flushed) + st.batch == NonBlankLines(lines)
  {
    if lines != [] {
      var n := |lines| - 1;
      ScanCovers(lines[..n], size);
      FeedCovers(ScanLines(lines[..n], size), lines[n], size);
      assert NonBlankLines(lines) == NonBlankLines(lines[..n]) + LineContribution(lines[n]);
    }
  }

  /** The batches, concatenated, are the file's non-blank lines in order,
      each without its newline. */
  lemma BatchesCover(lines: seq<string>, size: int)
    ensures Flatten(Batches(lines, size)) == NonBlankLines(lines)
  {
    var st := ScanLines(lines, size);
    ScanCovers(lines, size);
    if st.batch != [] {
      FlattenAppend(st.flushed, [st.batch]);
      assert [st.batch][..0] == [];
    }
  }

  lemma {:induction false} ScanSizes(lines: seq<string>, size: int)
    requires size >= 1
    ensures var st := ScanLines(lines, size);
            && |st.batch| < size
            && forall j :: 0 <= j < |st.flushed| ==> |st.flushed[j]| == size
  {
    if lines != [] {
      ScanSizes(lines[..|lines| - 1], size);
    }
  }

  /** With `batch_size >= 1`, every batch flushed in the loop has exactly
      `batch_size` lines and the final one between 1 and `batch_size`; so the
      number of writes is the least `k` with `k * batch_size` at least the
      number of non-blank lines. */
  lemma BatchSizes(lines: seq<string>, size: int)
    requires size >= 1
    ensures var bs := Batches(lines, size);
            && (forall j :: 0 <= j < |bs| - 1 ==> |bs[j]| == size)
            && (bs != [] ==> 1 <= |bs[|bs| - 1]| <= size)
  {
    ScanSizes(lines, size);
  }

  function TotalLines(bs: seq<seq<string>>): nat
  {
    if bs == [] then 0 else TotalLines(bs[..|bs| - 1]) + |bs[|bs| - 1]|
  }

  lemma {:induction false} TotalLinesFull(bs: seq<seq<string>>, size: int)
    requires forall j :: 0 <= j < |bs| ==> |bs[j]| == size
    ensures TotalLines(bs) == |bs| * size
  {
    if bs != [] {
      TotalLinesFull(bs[..|bs| - 1], size);
    }
  }

  lemma {:induction false} TotalLinesFlatten(bs: seq<seq<string>>)
    ensures TotalLines(bs) == |Flatten(bs)|
  {
    if bs != [] {
      TotalLinesFlatten(bs[..|bs| - 1]);
    }
  }

  /** The number of writes is `ceil(n / batch_size)` for `n` non-blank lines:
      enough batches to hold them all, and one fewer would not be. */
  lemma BatchCount(lines: seq<string>, size: int)
    requires size >= 1
    ensures var k, n := |Batches(lines, size)|, |NonBlankLines(lines)|;
            k * size >= n && (k == 0 || (k - 1) * size < n)
  {
    var st := ScanLines(lines, size);
    ScanSizes(lines, size);
    ScanCovers(lines, size);
    TotalLinesFull(st.flushed, size);
    TotalLinesFlatten(st.flushed);
    var n := |NonBlankLines(lines)|;
    assert n == |st.flushed| * size + |st.batch|;
  }

  // ---------------------------------------------------------------------
  // The store and the writer

  /** `"\n".join(batch)`. */
  function JoinNewline(lines: seq<string>): string
  {
    if lines == [] then ""
    else if |lines| == 1 then lines[0]
    else JoinNewline(lines[..|lines| - 1]) + "\n" + lines[|lines| - 1]
  }

  function JoinAll(bs: seq<seq<string>>): seq<string>
    ensures |JoinAll(bs)| == |bs|
  {
    if bs == [] then [] else JoinAll(bs[..|bs| - 1]) + [JoinNewline(bs[|bs| - 1])]
  }

  /** The store behind the client: the records it accepted, the number of
      write calls made, and the call numbers it refuses. */
  class Store {
    var written: seq<string>
    var calls: nat
    const refused: set<nat>

    constructor (refused: set<nat>)
      ensures written == [] && calls == 0 && this.refused == refused
    {
      written := [];
      calls := 0;
      this.refused := refused;
    }

    /** `client.write(record=points)`: accepted or refused (the client
        raises). */
    method Write(points: string) returns (ok: bool)
      modifies this
      ensures calls == old(calls) + 1 && ok == (old(calls) !in refused)
      ensures written == if ok then old(written) + [points] else old(written)
    {
      ok := calls !in refused;
      if ok {
        written := written + [points];
      }
      calls := calls + 1;
    }
  }

  /** Calls `base` to `base + n - 1` are all accepted. */
  predicate AllAccepted(refused: set<nat>, base: nat, n: nat)
  {
    forall j :: base <= j < base + n ==> j !in refused
  }

  /** How many of `n` calls, starting with call number `base`, succeed
      before the first refusal. */
  function Accepted(refused: set<nat>, base: nat, n: nat): (k: nat)
    ensures k <= n
    ensures AllAccepted(refused, base, k)
    ensures k < n ==> base + k in refused
    decreases n
  {
    if n == 0 || base in refused then 0 else 1 + Accepted(refused, base + 1, n - 1)
  }

  lemma {:induction false} AcceptedIs(refused: set<nat>, base: nat, n: nat, k: nat)
    requires k <= n
    requires AllAccepted(refused, base, k)
    requires k < n ==> base + k in refused
    ensures Accepted(refused, base, n) == k
    decreases n
  {
    if n > 0 && base !in refused {
      AcceptedIs(refused, base + 1, n - 1, k - 1);
    }
  }

  lemma {:induction false} FlushedGrows(lines: seq<string>, i: nat, size: int)
    requires i <= |lines|
    ensures var f := ScanLines(lines[..i], size).flushed;
            var g := ScanLines(lines, size).flushed;
            |f| <= |g| && g[..|f|] == f
    decreases |lines| - i
  {
    if i < |lines| {
      FlushedGrows(lines, i + 1, size);
      ScanStep(lines, i, size);
      var f := ScanLines(lines[..i], size).flushed;
      var f1 := ScanLines(lines[..i + 1], size).flushed;
      var g := ScanLines(lines, size).flushed;
      FeedGrows(ScanLines(lines[..i], size), lines[i], size);
      assert g[..|f1|][..|f|] == f;
    } else {
      assert lines[..i] == lines;
    }
  }

  /** One iteration keeps the flushed batches and may add one. */
  lemma FeedGrows(st: Scan, line: string, size: int)
    ensures var f := Feed(st, line, size).flushed;
            |st.flushed| <= |f| && f[..|st.flushed|] == st.flushed
  {
    var f := Feed(st, line, size).flushed;
    assert f == st.flushed || f == st.flushed + [f[|f| - 1]];
  }

  /** The batches flushed after `i` lines begin the list of all batches. */
  lemma FlushedPrefix(lines: seq<string>, i: nat, size: int)
    requires i <= |lines|
    ensures var f := ScanLines(lines[..i], size).flushed;
            var bs := Batches(lines, size);
            |f| <= |bs| && bs[..|f|] == f
  {
    FlushedGrows(lines, i, size);
  }

  lemma ScanStep(lines: seq<string>, i: nat, size: int)
    requires i < |lines|
    ensures ScanLines(lines[..i + 1], size) == Feed(ScanLines(lines[..i], size), lines[i], size)
  {
    assert lines[..i + 1][..i] == lines[..i];
  }

  /** The loop's step in the loop's own terms. */
  lemma FeedStep(lines: seq<string>, i: nat, size: int, flushed: seq<seq<string>>, batch: seq<string>)
    requires i < |lines| && ScanLines(lines[..i], size) == Scan(flushed, batch)
    ensures var b := if IsBlank(lines[i]) then batch else batch + [RStripNewlines(lines[i])];
            ScanLines(lines[..i + 1], size) == if |b| >= size then Scan(flushed + [b], []) else Scan(flushed, b)
  {
    ScanStep(lines, i, size);
  }

  lemma JoinAllSnoc(bs: seq<seq<string>>, b: seq<string>)
    ensures JoinAll(bs + [b]) == JoinAll(bs) + [JoinNewline(b)]
  {
    assert (bs + [b])[..|bs|] == bs;
  }

  lemma TotalLinesSnoc(bs: seq<seq<string>>, b: seq<string>)
    ensures TotalLines(bs + [b]) == TotalLines(bs) + |b|
  {
    assert (bs + [b])[..|bs|] == bs;
  }

  /** A refusal inside the loop: the batches before the refused one are
      exactly the accepted ones, and the refused one is the next batch. */
  lemma RefusedInLoop(lines: seq<string>, i: nat, size: int, flushed: seq<seq<string>>, batch: seq<string>,
                      refused: set<nat>, base: nat)
    requires i <= |lines| && ScanLines(lines[..i], size).flushed == flushed + [batch]
    requires AllAccepted(refused, base, |flushed|) && base + |flushed| in refused
    ensures var bs := Batches(lines, size);
            && Accepted(refused, base, |bs|) == |flushed| < |bs|
            && bs[..|flushed|] == flushed && bs[..|flushed| + 1] == flushed + [batch]
  {
    var bs := Batches(lines, size);
    FlushedPrefix(lines, i, size);
    assert bs[..|flushed| + 1] == flushed + [batch];
    assert bs[..|flushed|] == (flushed + [batch])[..|flushed|];
    AcceptedIs(refused, base, |bs|, |flushed|);
  }

  /** A refusal of the final batch. */
  lemma RefusedAtEnd(bs: seq<seq<string>>, flushed: seq<seq<string>>, batch: seq<string>,
                     refused: set<nat>, base: nat)
    requires bs == flushed + [batch]
    requires AllAccepted(refused, base, |flushed|) && base + |flushed| in refused
    ensures && Accepted(refused, base, |bs|) == |flushed| < |bs|
            && bs[..|flushed|] == flushed && bs[..|flushed| + 1] == bs
  {
    AcceptedIs(refused, base, |bs|, |flushed|);
    assert bs[..|flushed|] == flushed;
  }

  /** One more accepted call extends the accepted run. */
  lemma AcceptStep(refused: set<nat>, base: nat, n: nat)
    requires AllAccepted(refused, base, n) && base + n !in refused
    ensures AllAccepted(refused, base, n + 1)
  {
  }

  /** How many batches the writer attempts: all of them, or up to and
      including the first refused one. */
  function Attempts(k: nat, n: nat): nat
  {
    if k < n then k + 1 else n
  }

  /** One write of a batch joined by newlines, after `flushed` were all
      accepted from call number `base` on. */
  method SendBatch(batch: seq<string>, store: Store, ghost flushed: seq<seq<string>>,
                   ghost base: nat, ghost start: seq<string>) returns (accepted: bool)
    modifies store
    requires store.calls == base + |flushed| && store.written == start + JoinAll(flushed)
    requires AllAccepted(store.refused, base, |flushed|)
    ensures store.calls == base + |flushed| + 1
    ensures accepted <==> base + |flushed| !in store.refused
    ensures accepted ==> && store.written == start + JoinAll(flushed + [batch])
                         && AllAccepted(store.refused, base, |flushed| + 1)
    ensures !accepted ==> store.written == old(store.written)
  {
    var points := JoinNewline(batch);
    JoinAllSnoc(flushed, batch);
    accepted := store.Write(points);
    if accepted {
      AppendAssoc(start, JoinAll(flushed), [points]);
      AcceptStep(store.refused, base, |flushed|);
    }
  }

  /** What the loop of `write_to_influxdb` knows after reading `i` lines:
      the batches flushed so far and the open batch are those of the scan,
      and every flushed batch was accepted, in order, from call `base` on. */
  predicate Sent(lines: seq<string>, i: nat, size: int, store: Store, base: nat, start: seq<string>,
                 flushed: seq<seq<string>>, batch: seq<string>, wrote: nat)
    reads store
  {
    && i <= |lines|
    && ScanLines(lines[..i], size) == Scan(flushed, batch)
    && store.calls == base + |flushed|
    && store.written == start + JoinAll(flushed)
    && AllAccepted(store.refused, base, |flushed|)
    && wrote == TotalLines(flushed)
  }

  /** One iteration of the loop: the line joins the open batch unless it is
      blank, and a full batch is written.  A refusal leaves the batches
      before it accepted and the refused one next in the scan. */
  method SendLine(lines: seq<string>, i: nat, size: int, store: Store, batch: seq<string>, wrote: nat,
                  ghost base: nat, ghost start: seq<string>, ghost flushed: seq<seq<string>>)
    returns (batch': seq<string>, wrote': nat, accepted: bool, ghost flushed': seq<seq<string>>)
    modifies store
    requires i < |lines| && Sent(lines, i, size, store, base, start, flushed, batch, wrote)
    ensures accepted ==> Sent(lines, i + 1, size, store, base, start, flushed', batch', wrote')
    ensures !accepted ==> && ScanLines(lines[..i + 1], size).flushed == flushed' + [batch']
                          && AllAccepted(store.refused, base, |flushed'|)
                          && base + |flushed'| in store.refused
                          && store.written == start + JoinAll(flushed')
                          && store.calls == base + |flushed'| + 1
                          && wrote' == TotalLines(flushed' + [batch'])
  {
    FeedStep(lines, i, size, flushed, batch);
    batch', wrote', accepted, flushed' := batch, wrote, true, flushed;
    var line := lines[i];
    if !IsBlank(line) {
      batch' := batch' + [RStripNewlines(line)];
    }
    if |batch'| >= size {
      wrote' := wrote' + |batch'|;
      TotalLinesSnoc(flushed, batch');
      accepted := SendBatch(batch', store, flushed, base, start);
      if accepted {
        flushed' := flushed + [batch'];
        batch' := [];
      }
    }
  }

  /** The loop of `write_to_influxdb` over the file's lines: batches that
      reach `size` are written as they fill.  On success it leaves the open
      batch; on a refusal it stops at once. */
  method SendFullBatches(lines: seq<string>, size: int, store: Store)
    returns (batch: seq<string>, wrote: nat, ok: bool, ghost flushed: seq<seq<string>>)
    modifies store
    ensures ok ==> && ScanLines(lines, size) == Scan(flushed, batch)
                   && store.calls == old(store.calls) + |flushed|
                   && store.written == old(store.written) + JoinAll(flushed)
                   && AllAccepted(store.refused, old(store.calls), |flushed|)
                   && wrote == TotalLines(flushed)
    ensures !ok ==> var bs := Batches(lines, size);
                    && Accepted(store.refused, old(store.calls), |bs|) == |flushed| < |bs|
                    && bs[..|flushed|] == flushed && bs[..|flushed| + 1] == flushed + [batch]
                    && store.written == old(store.written) + JoinAll(flushed)
                    && store.calls == old(store.calls) + |flushed| + 1
                    && wrote == TotalLines(flushed + [batch])
  {
    ghost var base := store.calls;
    ghost var start := store.written;
    flushed := [];
    batch := [];
    wrote := 0;
    var i := 0;
    while i < |lines|
      invariant i <= |lines|
      invariant Sent(lines, i, size, store, base, start, flushed, batch, wrote)
    {
      var accepted;
      batch, wrote, accepted, flushed := SendLine(lines, i, size, store, batch, wrote, base, start, flushed);
      if !accepted {
        RefusedInLoop(lines, i + 1, size, flushed, batch, store.refused, base);
        return batch, wrote, false, flushed;
      }
      i := i + 1;
    }
    assert lines[..|lines|] == lines;
    ok := true;
  }

  /** `write_to_influxdb(filename, args, batch_size)` on a file holding
      `text`.  The store ends up holding the accepted prefix of the batches,
      each joined by newlines; the first refusal stops the writer with
      `ok == false` and no later batch is attempted.  `wrote` is the logged
      count of lines handed to write calls, the refused batch included. */
  method WriteToInfluxDB(text: string, size: int, store: Store) returns (wrote: nat, ok: bool)
    modifies store
    ensures var bs := Batches(ReadLines(text), size);
            var k := Accepted(store.refused, old(store.calls), |bs|);
            && store.written == old(store.written) + JoinAll(bs[..k])
            && store.calls == old(store.calls) + Attempts(k, |bs|)
            && (ok <==> k == |bs|)
            && wrote == TotalLines(bs[..Attempts(k, |bs|)])
  {
    var lines := ReadLines(text);
    ghost var all := Batches(lines, size);
    ghost var base := store.calls;
    ghost var refused := store.refused;
    var batch, sent, full;
    ghost var flushed;
    batch, sent, full, flushed := SendFullBatches(lines, size, store);
    wrote := sent;
    if !full {
      return wrote, false;
    }
    if batch != [] {
      wrote := wrote + |batch|;
      TotalLinesSnoc(flushed, batch);
      var accepted := SendBatch(batch, store, flushed, base, old(store.written));
      if !accepted {
        RefusedAtEnd(all, flushed, batch, refused, base);
        return wrote, false;
      }
      flushed := flushed + [batch];
    }
    assert all == flushed;
    AcceptedIs(refused, base, |all|, |all|);
    assert all[..|all|] == all;
    ok := true;
  }
}

/** `build_points` (`src/pipeline/bf2_rename_map.py`): one record of API data
    becomes InfluxDB line protocol, one line per measurement,
    `measurement f1=v1,f2=v2 <epoch-seconds>`.

    The specification is stated on values: `Contributions` lists the fields a
    record contributes, in record order; `MeasurementsInOrder` lists the
    measurements in the order they first receive a field; `SpecPoints` is the
    text.  `BuildPoints` is the builder's own loops, proved to produce
    `SpecPoints`. */
module Points {
  import opened Common
  import opened FieldMap

  /** A record: its (key, value) pairs in dictionary order. */
  type Record = seq<(string, Value)>

  /** What the builder depends on besides the record: the mapping tables,
      `float()` on strings, and the text `f"{val}"` gives a float. */
  datatype Config = Config(tables: Tables, parseFloat: string -> Option<real>, render: real -> string)

  /** One coerced field, bound for `measurement` as `field=<value>`. */
  datatype FieldValue = FieldValue(measurement: Measurement, field: string, value: real)

  datatype BuildError = MissingTimestamp

  function OptionToSeq<T>(o: Option<T>): (r: seq<T>)
    ensures |r| <= 1
  {
    if o.Some? then [o.value] else []
  }

  /** What one (key, value) pair adds to the output: nothing for an unknown
      key, a null field, a string-only field or a value that does not coerce;
      otherwise its coerced value under its measurement and field. */
  function Contribution(cfg: Config, key: string, v: Value): (r: Option<FieldValue>)
  {
    match GetMeasurementAndField(cfg.tables, key)
    case Unknown => None
    case Classified(m, f) =>
      if f.None? || f.value in STRING_FIELDS then None
      else match GetNumeric(v, cfg.parseFloat)
        case None => None
        case Some(x) => Some(FieldValue(m, f.value, x))
  }

  /** The contributions of a record, in record order. */
  function Contributions(cfg: Config, rec: Record): (cs: seq<FieldValue>)
    ensures |cs| <= |rec|
  {
    if rec == [] then []
    else
      var last := rec[|rec| - 1];
      Contributions(cfg, rec[..|rec| - 1]) + OptionToSeq(Contribution(cfg, last.0, last.1))
  }

  /** The measurements of `cs`, each once, in the order of first appearance. */
  function MeasurementsInOrder(cs: seq<FieldValue>): (ms: seq<Measurement>)
    ensures ms == [] <==> cs == []
  {
    if cs == [] then []
    else
      var prefix := MeasurementsInOrder(cs[..|cs| - 1]);
      var m := cs[|cs| - 1].measurement;
      if m in prefix then prefix else prefix + [m]
  }

  /** The contributions that go to measurement `m`, in record order. */
  function FieldsOf(cs: seq<FieldValue>, m: Measurement): (fs: seq<FieldValue>)
    ensures |fs| <= |cs|
  {
    if cs == [] then []
    else
      var c := cs[|cs| - 1];
      FieldsOf(cs[..|cs| - 1], m) + (if c.measurement == m then [c] else [])
  }

  predicate Distinct<T(==)>(s: seq<T>)
  {
    forall i, j :: 0 <= i < j < |s| ==> s[i] != s[j]
  }

  /** Exactly the measurements that receive some contribution are listed. */
  lemma {:induction false} MeasurementsInOrderMembers(cs: seq<FieldValue>)
    ensures forall m :: m in MeasurementsInOrder(cs) <==> exists c :: c in cs && c.measurement == m
  {
    if cs != [] {
      MeasurementsInOrderMembers(cs[..|cs| - 1]);
      assert forall c :: c in cs <==> c in cs[..|cs| - 1] || c == cs[|cs| - 1];
    }
  }

  /** Each measurement is listed once. */
  lemma {:induction false} MeasurementsInOrderDistinct(cs: seq<FieldValue>)
    ensures Distinct(MeasurementsInOrder(cs))
  {
    if cs != [] {
      var p := MeasurementsInOrder(cs[..|cs| - 1]);
      var m := cs[|cs| - 1].measurement;
      MeasurementsInOrderDistinct(cs[..|cs| - 1]);
      if m !in p {
        var q := p + [m];
        forall i, j | 0 <= i < j < |q| ensures q[i] != q[j] {
          if j == |p| {
            assert q[i] == p[i];
          }
        }
      }
    }
  }

  /** A measurement has no fields exactly when it is not listed. */
  lemma {:induction false} FieldsOfEmpty(cs: seq<FieldValue>, m: Measurement)
    ensures FieldsOf(cs, m) == [] <==> m !in MeasurementsInOrder(cs)
  {
    if cs != [] {
      FieldsOfEmpty(cs[..|cs| - 1], m);
    }
  }

  function FieldText(cfg: Config, c: FieldValue): string
  {
    c.field + "=" + cfg.render(c.value)
  }

  /** `f1=v1,f2=v2,...`. */
  function FieldList(cfg: Config, fs: seq<FieldValue>): string
  {
    if fs == [] then ""
    else if |fs| == 1 then FieldText(cfg, fs[0])
    else FieldList(cfg, fs[..|fs| - 1]) + ("," + FieldText(cfg, fs[|fs| - 1]))
  }

  /** A measurement's line before the timestamp is appended. */
  function LineHead(cfg: Config, cs: seq<FieldValue>, m: Measurement): string
  {
    MeasurementName(m) + " " + FieldList(cfg, FieldsOf(cs, m))
  }

  /** A finished line: head, a space, the epoch seconds, a newline. */
  function LineText(cfg: Config, cs: seq<FieldValue>, m: Measurement, ts: int): (r: string)
  {
    LineHead(cfg, cs, m) + " " + IntToString(ts) + "\n"
  }

  /** The lines of the measurements `ms`, in that order. */
  function Lines(cfg: Config, cs: seq<FieldValue>, ms: seq<Measurement>, ts: int): (r: string)
  {
    if ms == [] then ""
    else Lines(cfg, cs, ms[..|ms| - 1], ts) + LineText(cfg, cs, ms[|ms| - 1], ts)
  }

  /** What `build_points(record, ts)` returns, or the error it raises: the
      timestamp (`None` when `ts` is not a parsed datetime) is only used, and
      so only needed, when some line is emitted. */
  function SpecPoints(cfg: Config, rec: Record, ts: Option<int>): (r: Result<string, BuildError>)
    ensures r.Err? <==> ts.None? && Contributions(cfg, rec) != []
  {
    var cs := Contributions(cfg, rec);
    if cs == [] then Ok("")
    else if ts.None? then Err(MissingTimestamp)
    else Ok(Lines(cfg, cs, MeasurementsInOrder(cs), ts.value))
  }

  // ---------------------------------------------------------------------
  // The builder

  lemma AppendOne(cs: seq<FieldValue>, c: FieldValue)
    ensures MeasurementsInOrder(cs + [c])
            == MeasurementsInOrder(cs) + (if c.measurement in MeasurementsInOrder(cs) then [] else [c.measurement])
  {
    assert (cs + [c])[..|cs|] == cs;
  }

  lemma AppendOneFields(cs: seq<FieldValue>, c: FieldValue, m: Measurement)
    ensures FieldsOf(cs + [c], m) == if c.measurement == m then FieldsOf(cs, m) + [c] else FieldsOf(cs, m)
  {
    assert (cs + [c])[..|cs|] == cs;
  }

  lemma FieldListSnoc(cfg: Config, fs: seq<FieldValue>, c: FieldValue)
    ensures FieldList(cfg, fs + [c])
            == if fs == [] then FieldText(cfg, c) else FieldList(cfg, fs) + ("," + FieldText(cfg, c))
  {
    assert (fs + [c])[..|fs|] == fs;
  }

  /** The dictionary state after the contributions `cs` have been grouped:
      `order` lists the measurements in insertion order and `lines` holds each
      one's text so far. */
  ghost predicate Grouped(cfg: Config, cs: seq<FieldValue>, order: seq<Measurement>, lines: map<Measurement, string>)
  {
    && order == MeasurementsInOrder(cs)
    && (forall m :: m in lines <==> m in order)
    && HeadsMatch(cfg, cs, lines)
  }

  /** Each measurement's text is its line head for the contributions `cs`. */
  ghost predicate HeadsMatch(cfg: Config, cs: seq<FieldValue>, lines: map<Measurement, string>)
  {
    forall m :: m in lines ==> lines[m] == LineHead(cfg, cs, m)
  }

  /** A measurement's first value opens its line. */
  lemma GroupedOpen(cfg: Config, cs: seq<FieldValue>, order: seq<Measurement>, lines: map<Measurement, string>, c: FieldValue)
    requires Grouped(cfg, cs, order, lines) && c.measurement !in lines
    ensures Grouped(cfg, cs + [c], order + [c.measurement],
                    lines[c.measurement := MeasurementName(c.measurement) + " " + FieldText(cfg, c)])
  {
    var m := c.measurement;
    var cs' := cs + [c];
    var lines' := lines[m := MeasurementName(m) + " " + FieldText(cfg, c)];
    AppendOne(cs, c);
    forall m' | m' in lines' ensures lines'[m'] == LineHead(cfg, cs', m') {
      AppendOneFields(cs, c, m');
      if m' == m {
        FieldsOfEmpty(cs, m);
        FieldListSnoc(cfg, [], c);
        assert FieldsOf(cs', m) == [] + [c];
      }
    }
  }

  /** A later value extends its measurement's line. */
  lemma GroupedExtend(cfg: Config, cs: seq<FieldValue>, order: seq<Measurement>, lines: map<Measurement, string>, c: FieldValue)
    requires Grouped(cfg, cs, order, lines) && c.measurement in lines
    ensures Grouped(cfg, cs + [c], order,
                    lines[c.measurement := lines[c.measurement] + ("," + FieldText(cfg, c))])
  {
    AppendOne(cs, c);
    assert MeasurementsInOrder(cs + [c]) == order by {
      assert order + [] == order;
    }
    FieldsOfEmpty(cs, c.measurement);
    ExtendLine(cfg, cs, lines, c);
  }

  lemma ExtendLine(cfg: Config, cs: seq<FieldValue>, lines: map<Measurement, string>, c: FieldValue)
    requires HeadsMatch(cfg, cs, lines)
    requires c.measurement in lines && FieldsOf(cs, c.measurement) != []
    ensures HeadsMatch(cfg, cs + [c], lines[c.measurement := lines[c.measurement] + ("," + FieldText(cfg, c))])
  {
    var m := c.measurement;
    var lines' := lines[m := lines[m] + ("," + FieldText(cfg, c))];
    forall m' | m' in lines' ensures lines'[m'] == LineHead(cfg, cs + [c], m') {
      AppendOneFields(cs, c, m');
      if m' == m {
        var fs := FieldsOf(cs, m);
        FieldListSnoc(cfg, fs, c);
        AppendAssoc(MeasurementName(m) + " ", FieldList(cfg, fs), "," + FieldText(cfg, c));
      }
    }
  }

  lemma ContributionsStep(cfg: Config, rec: Record, i: nat)
    requires i < |rec|
    ensures Contributions(cfg, rec[..i + 1])
            == Contributions(cfg, rec[..i]) + OptionToSeq(Contribution(cfg, rec[i].0, rec[i].1))
  {
    assert rec[..i + 1][..i] == rec[..i];
  }

  /** The dictionary the first loop has built after the contributions `cs`:
      the insertion order and each measurement's text. */
  function Group(cfg: Config, cs: seq<FieldValue>): (seq<Measurement>, map<Measurement, string>)
  {
    if cs == [] then ([], map[])
    else
      var g := Group(cfg, cs[..|cs| - 1]);
      var c := cs[|cs| - 1];
      var m := c.measurement;
      if m in g.1 then (g.0, g.1[m := g.1[m] + ("," + FieldText(cfg, c))])
      else (g.0 + [m], g.1[m := MeasurementName(m) + " " + FieldText(cfg, c)])
  }

  lemma GroupSnoc(cfg: Config, cs: seq<FieldValue>, c: FieldValue)
    ensures var g := Group(cfg, cs);
            var m := c.measurement;
            Group(cfg, cs + [c])
            == if m in g.1 then (g.0, g.1[m := g.1[m] + ("," + FieldText(cfg, c))])
               else (g.0 + [m], g.1[m := MeasurementName(m) + " " + FieldText(cfg, c)])
  {
    assert (cs + [c])[..|cs|] == cs;
  }

  /** One more contribution keeps the grouping the dictionary state
      `Grouped` describes. */
  lemma GroupStep(cfg: Config, cs: seq<FieldValue>)
    requires cs != []
    requires var p := cs[..|cs| - 1]; Grouped(cfg, p, Group(cfg, p).0, Group(cfg, p).1)
    ensures Grouped(cfg, cs, Group(cfg, cs).0, Group(cfg, cs).1)
  {
    var p, c := cs[..|cs| - 1], cs[|cs| - 1];
    var g := Group(cfg, p);
    assert cs == p + [c];
    if c.measurement in g.1 {
      GroupedExtend(cfg, p, g.0, g.1, c);
    } else {
      GroupedOpen(cfg, p, g.0, g.1, c);
    }
  }

  /** The grouping is the dictionary state `Grouped` describes. */
  lemma {:induction false} GroupIsGrouped(cfg: Config, cs: seq<FieldValue>)
    ensures Grouped(cfg, cs, Group(cfg, cs).0, Group(cfg, cs).1)
  {
    if cs != [] {
      GroupIsGrouped(cfg, cs[..|cs| - 1]);
      GroupStep(cfg, cs);
    }
  }

  /** The builder's first loop: the record's coercible fields grouped by
      measurement in a dictionary kept in insertion order.  A measurement
      enters the dictionary (and the set of logged measurements) with its
      first coercible value. */
  method GroupFields(cfg: Config, rec: Record) returns (order: seq<Measurement>, lines: map<Measurement, string>)
    ensures Grouped(cfg, Contributions(cfg, rec), order, lines)
  {
    var logged: set<Measurement> := {};
    lines := map[];
    order := [];
    var i := 0;
    while i < |rec|
      invariant 0 <= i <= |rec|
      invariant logged == lines.Keys
      invariant (order, lines) == Group(cfg, Contributions(cfg, rec[..i]))
    {
      var k, v := rec[i].0, rec[i].1;
      ghost var cs := Contributions(cfg, rec[..i]);
      ContributionsStep(cfg, rec, i);
      var cls := GetMeasurementAndField(cfg.tables, k);
      if cls.Classified? && cls.field.Some? && cls.field.value !in STRING_FIELDS {
        var m, f := cls.measurement, cls.field.value;
        var val := GetNumeric(v, cfg.parseFloat);
        if val.Some? {
          var c := FieldValue(m, f, val.value);
          assert Contributions(cfg, rec[..i + 1]) == cs + [c];
          GroupSnoc(cfg, cs, c);
          if m !in logged {
            logged := logged + {m};
            lines := lines[m := MeasurementName(m) + " " + FieldText(cfg, c)];
            order := order + [m];
          } else {
            lines := lines[m := lines[m] + ("," + FieldText(cfg, c))];
          }
        } else {
          assert Contributions(cfg, rec[..i + 1]) == cs;
        }
      } else {
        assert Contributions(cfg, rec[..i + 1]) == cs;
      }
      i := i + 1;
    }
    assert rec[..|rec|] == rec;
    GroupIsGrouped(cfg, Contributions(cfg, rec));
  }

  /** The builder's second loop: `" <epoch>"` appended to every line.  On a
      timestamp that is not a datetime the first line raises; with no lines
      nothing is evaluated. */
  method StampLines(order: seq<Measurement>, lines: map<Measurement, string>, ts: Option<int>)
    returns (r: Result<map<Measurement, string>, BuildError>)
    requires Distinct(order) && forall m :: m in lines <==> m in order
    ensures order == [] ==> r == Ok(lines)
    ensures order != [] && ts.None? ==> r == Err(MissingTimestamp)
    ensures ts.Some? ==> r.Ok? && r.value.Keys == lines.Keys
    ensures ts.Some? ==> forall m :: m in lines ==> r.value[m] == lines[m] + " " + IntToString(ts.value)
  {
    var stamped := lines;
    var j := 0;
    while j < |order|
      invariant 0 <= j <= |order|
      invariant ts.Some? || j == 0
      invariant stamped.Keys == lines.Keys
      invariant forall k :: 0 <= k < j ==> stamped[order[k]] == lines[order[k]] + " " + IntToString(ts.value)
      invariant forall k :: j <= k < |order| ==> stamped[order[k]] == lines[order[k]]
    {
      if ts.None? {
        // `ts.timestamp()` on something that is not a datetime
        return Err(MissingTimestamp);
      }
      stamped := stamped[order[j] := stamped[order[j]] + " " + IntToString(ts.value)];
      j := j + 1;
    }
    forall m | m in lines ensures ts.Some? ==> stamped[m] == lines[m] + " " + IntToString(ts.value) {
      var k :| 0 <= k < |order| && order[k] == m;
    }
    r := Ok(stamped);
  }

  /** The lines of `order`, each followed by a newline. */
  function Joined(order: seq<Measurement>, lines: map<Measurement, string>): string
    requires forall k :: 0 <= k < |order| ==> order[k] in lines
  {
    if order == [] then ""
    else Joined(order[..|order| - 1], lines) + lines[order[|order| - 1]] + "\n"
  }

  /** The builder's third loop: the lines, in insertion order, concatenated
      with a newline after each. */
  method JoinLines(order: seq<Measurement>, lines: map<Measurement, string>) returns (out: string)
    requires forall k :: 0 <= k < |order| ==> order[k] in lines
    ensures out == Joined(order, lines)
  {
    out := "";
    var j := 0;
    while j < |order|
      invariant 0 <= j <= |order|
      invariant out == Joined(order[..j], lines)
    {
      assert order[..j + 1][..j] == order[..j];
      out := out + lines[order[j]] + "\n";
      j := j + 1;
    }
    assert order[..|order|] == order;
  }

  /** Grouped and stamped lines joined in insertion order are the specified
      text. */
  lemma {:induction false} JoinedIsLines(cfg: Config, cs: seq<FieldValue>, order: seq<Measurement>,
                                         stamped: map<Measurement, string>, ts: int)
    requires forall k :: 0 <= k < |order| ==> order[k] in stamped
    requires forall k :: 0 <= k < |order| ==>
               stamped[order[k]] == LineHead(cfg, cs, order[k]) + " " + IntToString(ts)
    ensures Joined(order, stamped) == Lines(cfg, cs, order, ts)
  {
    if order != [] {
      var n := |order| - 1;
      var x := stamped[order[n]];
      JoinedIsLines(cfg, cs, order[..n], stamped, ts);
      assert LineText(cfg, cs, order[n], ts) == x + "\n";
      AppendAssoc(Joined(order[..n], stamped), x, "\n");
    }
  }

  /** `build_points(record, ts)`: group the fields, append the timestamp to
      every line (which raises when `ts` is not a datetime and there is a
      line), then join the lines, each followed by a newline. */
  method BuildPoints(cfg: Config, rec: Record, ts: Option<int>) returns (r: Result<string, BuildError>)
    ensures r == SpecPoints(cfg, rec, ts)
  {
    var order, lines := GroupFields(cfg, rec);
    ghost var cs := Contributions(cfg, rec);
    MeasurementsInOrderDistinct(cs);
    var stamped := StampLines(order, lines, ts);
    if stamped.Err? {
      return Err(stamped.error);
    }
    if order == [] {
      return Ok("");
    }
    var out := JoinLines(order, stamped.value);
    JoinedIsLines(cfg, cs, order, stamped.value, ts.value);
    r := Ok(out);
  }

  // ---------------------------------------------------------------------
  // Properties of the output

  /** Splitting a record splits its contributions. */
  lemma {:induction false} ContributionsAppend(cfg: Config, a: Record, b: Record)
    ensures Contributions(cfg, a + b) == Contributions(cfg, a) + Contributions(cfg, b)
    decreases |b|
  {
    if b == [] {
      assert a + b == a;
    } else {
      var b', last := b[..|b| - 1], b[|b| - 1];
      assert (a + b)[..|a + b| - 1] == a + b' && (a + b)[|a + b| - 1] == last;
      ContributionsAppend(cfg, a, b');
      AppendAssoc(Contributions(cfg, a), Contributions(cfg, b'),
                  OptionToSeq(Contribution(cfg, last.0, last.1)));
    }
  }

  /** A pair that contributes nothing — an unknown key, a null field, a
      string-only field, or a value that does not coerce — can be removed
      from the record without changing the output. */
  lemma NonContributingIrrelevant(cfg: Config, a: Record, k: string, v: Value, b: Record, ts: Option<int>)
    requires
      var cls := GetMeasurementAndField(cfg.tables, k);
      || cls.Unknown? || cls.field.None? || cls.field.value in STRING_FIELDS
      || GetNumeric(v, cfg.parseFloat).None?
    ensures SpecPoints(cfg, a + [(k, v)] + b, ts) == SpecPoints(cfg, a + b, ts)
  {
    DropNonContributing(cfg, a, k, v, b);
  }

  lemma DropNonContributing(cfg: Config, a: Record, k: string, v: Value, b: Record)
    requires Contribution(cfg, k, v).None?
    ensures Contributions(cfg, a + [(k, v)] + b) == Contributions(cfg, a + b)
  {
    var ca, cb := Contributions(cfg, a), Contributions(cfg, b);
    ContributionsSingleton(cfg, k, v);
    ContributionsAppend(cfg, a, [(k, v)]);
    assert Contributions(cfg, a + [(k, v)]) == ca + [] == ca;
    ContributionsAppend(cfg, a + [(k, v)], b);
    ContributionsAppend(cfg, a, b);
  }

  lemma ContributionsSingleton(cfg: Config, k: string, v: Value)
    ensures Contributions(cfg, [(k, v)]) == OptionToSeq(Contribution(cfg, k, v))
  {
    assert [(k, v)][..0] == [];
  }

  /** A contribution comes from some pair of the record, and every
      contributing pair is represented. */
  lemma {:induction false} InContributions(cfg: Config, rec: Record, c: FieldValue)
    ensures c in Contributions(cfg, rec)
            <==> exists i :: 0 <= i < |rec| && Contribution(cfg, rec[i].0, rec[i].1) == Some(c)
  {
    if rec != [] {
      var n := |rec| - 1;
      InContributions(cfg, rec[..n], c);
      assert forall i :: 0 <= i < n ==> rec[..n][i] == rec[i];
    }
  }

  /** A measurement gets a line exactly when some pair of the record is
      classified under it, has a non-null field outside `STRING_FIELDS`, and
      its value coerces. */
  lemma MeasurementHasLineIff(cfg: Config, rec: Record, m: Measurement)
    ensures m in MeasurementsInOrder(Contributions(cfg, rec))
            <==> exists i :: 0 <= i < |rec| && Contribution(cfg, rec[i].0, rec[i].1).Some?
                             && Contribution(cfg, rec[i].0, rec[i].1).value.measurement == m
  {
    var cs := Contributions(cfg, rec);
    MeasurementsInOrderMembers(cs);
    if m in MeasurementsInOrder(cs) {
      var c :| c in cs && c.measurement == m;
      InContributions(cfg, rec, c);
    } else {
      forall i | 0 <= i < |rec| && Contribution(cfg, rec[i].0, rec[i].1).Some?
        ensures Contribution(cfg, rec[i].0, rec[i].1).value.measurement != m
      {
        InContributions(cfg, rec, Contribution(cfg, rec[i].0, rec[i].1).value);
      }
    }
  }

  /** A measurement all of whose values fail to coerce emits no line. */
  lemma SuppressedMeasurement(cfg: Config, rec: Record, m: Measurement)
    requires forall i :: 0 <= i < |rec| && GetMeasurementAndField(cfg.tables, rec[i].0).Classified?
               && GetMeasurementAndField(cfg.tables, rec[i].0).measurement == m
               ==> GetNumeric(rec[i].1, cfg.parseFloat).None?
    ensures m !in MeasurementsInOrder(Contributions(cfg, rec))
  {
    MeasurementHasLineIff(cfg, rec, m);
  }

  /** Lines come in the order measurements first receive a value: the
      measurements of any prefix of the contributions come first, in the same
      order. */
  lemma {:induction false} MeasurementsPrefix(cs: seq<FieldValue>, n: nat)
    requires n <= |cs|
    ensures var p := MeasurementsInOrder(cs[..n]);
            var q := MeasurementsInOrder(cs);
            |p| <= |q| && q[..|p|] == p
    decreases |cs| - n
  {
    if n < |cs| {
      MeasurementsPrefix(cs, n + 1);
      assert cs[..n + 1][..n] == cs[..n];
      AppendOne(cs[..n], cs[n]);
      assert cs[..n + 1] == cs[..n] + [cs[n]];
    } else {
      assert cs[..n] == cs;
    }
  }

  /** The output is empty exactly when no pair of the record qualifies. */
  lemma EmptyIffNothingQualifies(cfg: Config, rec: Record, ts: Option<int>)
    ensures SpecPoints(cfg, rec, ts) == Ok("") <==> Contributions(cfg, rec) == []
  {
    var cs := Contributions(cfg, rec);
    if cs != [] && ts.Some? {
      var ms := MeasurementsInOrder(cs);
      var n := |ms| - 1;
      assert |LineText(cfg, cs, ms[n], ts.value)| > 0;
    }
  }

  /** Every line of a non-empty output carries the record's timestamp: the
      output ends with `" <epoch>\n"`. */
  lemma EndsWithTimestamp(cfg: Config, rec: Record, ts: Option<int>)
    requires SpecPoints(cfg, rec, ts).Ok? && SpecPoints(cfg, rec, ts).value != ""
    ensures ts.Some?
    ensures EndsWith(SpecPoints(cfg, rec, ts).value, " " + IntToString(ts.value) + "\n")
  {
    var cs := Contributions(cfg, rec);
    var ms := MeasurementsInOrder(cs);
    var n := |ms| - 1;
    var tail := " " + IntToString(ts.value) + "\n";
    var h := LineHead(cfg, cs, ms[n]);
    var l := Lines(cfg, cs, ms[..n], ts.value);
    assert LineText(cfg, cs, ms[n], ts.value) == h + tail by {
      AppendAssoc(h, " ", IntToString(ts.value));
      AppendAssoc(h, " " + IntToString(ts.value), "\n");
    }
    AppendAssoc(l, h, tail);
    assert (l + h + tail)[|l + h|..] == tail;
  }
}

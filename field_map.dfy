/** Classification of raw API variable names into InfluxDB measurements and
    fields, and the coercion of raw values to numbers
    (`src/pipeline/bf2_rename_map.py`).  The six mapping tables are loaded
    from a YAML file at import time; here they are a value of `Tables`. */
module FieldMap {
  import opened Common

  /** One mapping table: raw variable name to field name.  A YAML entry
      without a value maps to `None`. */
  type Table = map<string, Option<string>>

  datatype Tables = Tables(
    temperature: Table,
    process: Table,
    heatload: Table,
    miscellaneous: Table,
    coolingWater: Table,
    deltaT: Table)

  /** The six measurements, one per mapping table. */
  datatype Measurement =
    | TemperatureProfile
    | ProcessParams
    | HeatloadDeltaT
    | Miscellaneous
    | CoolingWater
    | DeltaT

  /** The measurement's name as written in line protocol. */
  function MeasurementName(m: Measurement): (r: string)
    ensures r != []
  {
    match m
    case TemperatureProfile => "temperature_profile"
    case ProcessParams => "process_params"
    case HeatloadDeltaT => "heatload_delta_t"
    case Miscellaneous => "miscellaneous"
    case CoolingWater => "cooling_water"
    case DeltaT => "delta_t"
  }

  /** Fields always meant to be written as strings; the point builder skips
      them. */
  const STRING_FIELDS: set<string> := {"hot_blast_temp_spare"}

  /** The table that feeds each measurement. */
  function TableOf(t: Tables, m: Measurement): Table
  {
    match m
    case TemperatureProfile => t.temperature
    case ProcessParams => t.process
    case HeatloadDeltaT => t.heatload
    case Miscellaneous => t.miscellaneous
    case CoolingWater => t.coolingWater
    case DeltaT => t.deltaT
  }

  /** The measurements in lookup priority order. */
  const PRIORITY: seq<Measurement> :=
    [TemperatureProfile, ProcessParams, HeatloadDeltaT, Miscellaneous, CoolingWater, DeltaT]

  /** The tables with their measurements, in lookup priority order. */
  function Priority(t: Tables): (r: seq<(Measurement, Table)>)
    ensures |r| == 6
    ensures forall i :: 0 <= i < 6 ==> r[i] == (PRIORITY[i], TableOf(t, PRIORITY[i]))
  {
    seq(6, i requires 0 <= i < 6 => (PRIORITY[i], TableOf(t, PRIORITY[i])))
  }

  /** The result of a lookup: `(None, None)` for an unknown key, otherwise the
      measurement and the (possibly null) mapped field. */
  datatype Classification = Unknown | Classified(measurement: Measurement, field: Option<string>)

  /** `get_measurement_and_field(raw_key)`: the tables are tried one after the
      other and the first that holds the key decides.  A classified key is in
      its measurement's table, and the field is that table's entry. */
  function GetMeasurementAndField(t: Tables, key: string): (r: Classification)
    ensures r.Classified? ==> key in TableOf(t, r.measurement)
    ensures r.Classified? ==> r.field == TableOf(t, r.measurement)[key]
  {
    if key in t.temperature then Classified(TemperatureProfile, t.temperature[key])
    else if key in t.process then Classified(ProcessParams, t.process[key])
    else if key in t.heatload then Classified(HeatloadDeltaT, t.heatload[key])
    else if key in t.miscellaneous then Classified(Miscellaneous, t.miscellaneous[key])
    else if key in t.coolingWater then Classified(CoolingWater, t.coolingWater[key])
    else if key in t.deltaT then Classified(DeltaT, t.deltaT[key])
    else Unknown
  }

  /** Reference definition: the first table in a priority list that holds the
      key. */
  function FirstHit(tables: seq<(Measurement, Table)>, key: string): Classification
  {
    if tables == [] then Unknown
    else if key in tables[0].1 then Classified(tables[0].0, tables[0].1[key])
    else FirstHit(tables[1..], key)
  }

  /** A first hit at position `i` of the list is the answer of the list. */
  lemma {:induction false} FirstHitAt(tables: seq<(Measurement, Table)>, key: string, i: nat)
    requires i < |tables| && key in tables[i].1
    requires forall j :: 0 <= j < i ==> key !in tables[j].1
    ensures FirstHit(tables, key) == Classified(tables[i].0, tables[i].1[key])
  {
    if i > 0 {
      assert key !in tables[0].1;
      FirstHitAt(tables[1..], key, i - 1);
    }
  }

  /** A key in no table of the list is unknown to the list. */
  lemma {:induction false} FirstHitNone(tables: seq<(Measurement, Table)>, key: string)
    requires forall j :: 0 <= j < |tables| ==> key !in tables[j].1
    ensures FirstHit(tables, key) == Unknown
  {
    if tables != [] {
      FirstHitNone(tables[1..], key);
    }
  }

  /** For a key held by table `i` and by no earlier table, the lookup returns
      table `i`'s measurement and that table's field for the key. */
  lemma ClassifyHit(t: Tables, key: string, i: nat)
    requires i < 6 && key in Priority(t)[i].1
    requires forall j :: 0 <= j < i ==> key !in Priority(t)[j].1
    ensures GetMeasurementAndField(t, key) == Classified(Priority(t)[i].0, Priority(t)[i].1[key])
  {
    FirstHitAt(Priority(t), key, i);
    GetMeasurementAndFieldIsFirstHit(t, key);
  }

  /** The chain of tests is the first-hit search over the priority list. */
  lemma GetMeasurementAndFieldIsFirstHit(t: Tables, key: string)
    ensures GetMeasurementAndField(t, key) == FirstHit(Priority(t), key)
  {
    var p := Priority(t);
    if key in t.temperature {
      FirstHitAt(p, key, 0);
    } else if key in t.process {
      FirstHitAt(p, key, 1);
    } else if key in t.heatload {
      FirstHitAt(p, key, 2);
    } else if key in t.miscellaneous {
      FirstHitAt(p, key, 3);
    } else if key in t.coolingWater {
      FirstHitAt(p, key, 4);
    } else if key in t.deltaT {
      FirstHitAt(p, key, 5);
    } else {
      FirstHitNone(p, key);
    }
  }

  /** A key found in no list is unknown; a key found in some table is
      classified. */
  lemma {:induction false} FirstHitUnknown(tables: seq<(Measurement, Table)>, key: string)
    ensures FirstHit(tables, key).Unknown? <==> forall j :: 0 <= j < |tables| ==> key !in tables[j].1
  {
    if tables != [] && key !in tables[0].1 {
      FirstHitUnknown(tables[1..], key);
      assert forall j :: 1 <= j < |tables| ==> tables[j] == tables[1..][j - 1];
    }
  }

  /** An unknown key yields `(None, None)`, and only a key in none of the
      six tables does. */
  lemma UnknownIffInNoTable(t: Tables, key: string)
    ensures GetMeasurementAndField(t, key).Unknown?
            <==> forall i :: 0 <= i < 6 ==> key !in Priority(t)[i].1
  {
    GetMeasurementAndFieldIsFirstHit(t, key);
    FirstHitUnknown(Priority(t), key);
  }

  // ---------------------------------------------------------------------
  // Values and numeric coercion

  /** The values a record can hold: what the payload parser produces
      (strings, integers, floats, booleans, `None`, other literals) plus the
      parsed UTC timestamp the pipeline puts in place of `Timelogged`
      (as whole epoch seconds). */
  datatype Value =
    | Str(s: string)
    | Bytes(bs: string)
    | Int(i: int)
    | Float(f: real)
    | Bool(b: bool)
    | NoneValue
    | Timestamp(epoch: int)
    | Other

  /** `get_numeric(value)`: a blank string gives `None`; any other string,
      and any bytes literal (its bytes read as characters), is handed to
      `float()` (`parseFloat`, where `None` stands for the caught
      `ValueError`); numbers and booleans convert; `None`, timestamps and any
      other literal raise the caught `TypeError`, giving `None`. */
  function GetNumeric(v: Value, parseFloat: string -> Option<real>): (r: Option<real>)
    ensures r.Some? ==> v.Str? || v.Bytes? || v.Int? || v.Float? || v.Bool?
  {
    match v
    case Str(s) => if IsBlank(s) then None else parseFloat(s)
    case Bytes(bs) => parseFloat(bs)
    case Int(i) => Some(i as real)
    case Float(f) => Some(f)
    case Bool(b) => Some(if b then 1.0 else 0.0)
    case _ => None
  }

  /** A string that strips to nothing never reaches the float parser, and
      any other string is exactly what the float parser makes of it.  A
      bytes literal always reaches the parser, blank or not. */
  lemma GetNumericString(s: string, parseFloat: string -> Option<real>)
    ensures Strip(s) == [] ==> GetNumeric(Str(s), parseFloat) == None
    ensures Strip(s) != [] ==> GetNumeric(Str(s), parseFloat) == parseFloat(s)
    ensures GetNumeric(Bytes(s), parseFloat) == parseFloat(s)
  {
    BlankIsStripEmpty(s);
  }

  /** Integers, floats and booleans always coerce, to their own value. */
  lemma GetNumericNumbers(n: int, x: real, parseFloat: string -> Option<real>)
    ensures GetNumeric(Int(n), parseFloat) == Some(n as real)
    ensures GetNumeric(Float(x), parseFloat) == Some(x)
    ensures GetNumeric(Bool(true), parseFloat) == Some(1.0)
    ensures GetNumeric(Bool(false), parseFloat) == Some(0.0)
    ensures GetNumeric(NoneValue, parseFloat) == None
  {
  }
}

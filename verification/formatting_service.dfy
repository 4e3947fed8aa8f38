/** `MedicalDataFormatter`: vital signs and lab results, stored as JSON
    text or already parsed, rendered as Markdown tables with a status
    column. JSON parsing (`json.loads`) and the `str()` of floats, lists
    and dicts are parameters; any exception inside a formatter turns into
    its fixed error message. */
module FormattingService {
  import opened Common

  /** `json.loads`: the parsed value, or the decoding error. */
  type Loads = string -> Result<Json>

  /** `str(v)` for the values whose text the model does not spell out
      (floats, lists, dicts). */
  type Repr = Json -> string

  /** What an f-string placeholder shows for a parsed value. */
  function Display(j: Json, repr: Repr): string {
    match j
    case JStr(s) => s
    case JNull => "None"
    case JBool(b) => if b then "True" else "False"
    case JInt(i) => IntToString(i)
    case _ => repr(j)
  }

  /** The value Python compares against a threshold: numbers, with bools as
      0 and 1; None for anything a comparison with a number rejects. */
  function Num(j: Json): Option<real> {
    match j
    case JInt(i) => Some(i as real)
    case JFloat(f) => Some(f)
    case JBool(b) => Some(if b then 1.0 else 0.0)
    case _ => None
  }

  // ---------------------------------------------------------------------
  // Status labels

  const Normal: string := "✅ Normal"
  const Elevated: string := "⚠️ Elevated"
  const Stage1: string := "🔶 High Stage 1"
  const Stage2: string := "🔴 High Stage 2"
  const Low: string := "🔵 Low"
  const High: string := "🔴 High"
  const Abnormal: string := "⚠️ Abnormal"
  const LowOxygen: string := "🔴 Low"
  const Pending: string := "⏳ Pending"

  /** `get_bp_status(systolic, diastolic)` on numbers. */
  function BpStatus(systolic: real, diastolic: real): string {
    if systolic < 120.0 && diastolic < 80.0 then Normal
    else if systolic < 130.0 && diastolic < 80.0 then Elevated
    else if systolic < 140.0 || diastolic < 90.0 then Stage1
    else Stage2
  }

  /** The four blood-pressure classes, each characterised on its own:
      Stage 1 is reached by either reading alone being below its Stage 2
      bound, so a high systolic with a low diastolic is Stage 1. */
  lemma BpClasses(systolic: real, diastolic: real)
    ensures BpStatus(systolic, diastolic) == Normal <==> systolic < 120.0 && diastolic < 80.0
    ensures BpStatus(systolic, diastolic) == Elevated <==> 120.0 <= systolic < 130.0 && diastolic < 80.0
    ensures BpStatus(systolic, diastolic) == Stage2 <==> systolic >= 140.0 && diastolic >= 90.0
    ensures BpStatus(systolic, diastolic) == Stage1 <==>
      (systolic >= 130.0 || diastolic >= 80.0) && (systolic < 140.0 || diastolic < 90.0)
  {
    assert Normal != Elevated && Normal != Stage1 && Normal != Stage2 by {
      assert Normal[0] != Elevated[0] && Normal[0] != Stage1[0] && Normal[0] != Stage2[0];
    }
    assert Elevated != Stage1 && Elevated != Stage2 by {
      assert Elevated[0] != Stage1[0] && Elevated[0] != Stage2[0];
    }
    assert Stage1 != Stage2 by {
      assert Stage1[0] != Stage2[0];
    }
  }

  /** A systolic of 180 over a diastolic of 70 is Stage 1, not Stage 2. */
  lemma HighSystolicLowDiastolic()
    ensures BpStatus(180.0, 70.0) == Stage1
  {
  }

  /** `get_bp_status` on the stored values, with Python's short-circuit
      evaluation: a comparison of a non-number raises (None), but only the
      comparisons actually reached are made. */
  function BpStatusOf(systolic: Json, diastolic: Json): Option<string> {
    if Num(systolic).None? then None
    else
      var s := Num(systolic).value;
      // the diastolic is compared unless 130 <= systolic < 140, where the
      // `or` of the Stage 1 test succeeds on the systolic alone
      if (s < 130.0 || s >= 140.0) && Num(diastolic).None? then None
      else if 130.0 <= s < 140.0 then Some(Stage1)
      else Some(BpStatus(s, Num(diastolic).value))
  }

  /** On numbers the short-circuit evaluation is the plain classification;
      a systolic in 130..140 decides Stage 1 without looking at the
      diastolic at all. */
  lemma BpStatusOfNumbers(systolic: Json, diastolic: Json)
    ensures Num(systolic).Some? && Num(diastolic).Some? ==>
      BpStatusOf(systolic, diastolic) == Some(BpStatus(Num(systolic).value, Num(diastolic).value))
    ensures Num(systolic).Some? && 130.0 <= Num(systolic).value < 140.0 ==>
      BpStatusOf(systolic, diastolic) == Some(Stage1)
    ensures Num(systolic).None? ==> BpStatusOf(systolic, diastolic) == None
  {
  }

  /** `get_heart_rate_status(hr)` */
  function HeartRateStatus(hr: real): (r: string)
    ensures r == Normal <==> 60.0 <= hr <= 100.0
    ensures r == Low <==> hr < 60.0
    ensures r == High <==> hr > 100.0
  {
    assert Normal[0] != Low[0] && Normal[0] != High[0] && Low[0] != High[0];
    if 60.0 <= hr <= 100.0 then Normal
    else if hr < 60.0 then Low
    else High
  }

  /** `get_temp_status(temp)`, in degrees Fahrenheit. */
  function TempStatus(temp: real): (r: string)
    ensures r == Normal <==> 97.0 <= temp <= 99.0
    ensures r == Low <==> temp < 97.0
    ensures r == High <==> temp > 99.0
  {
    assert Normal[0] != Low[0] && Normal[0] != High[0] && Low[0] != High[0];
    if 97.0 <= temp <= 99.0 then Normal
    else if temp < 97.0 then Low
    else High
  }

  /** The respiratory-rate status. */
  function RespiratoryStatus(rr: real): (r: string)
    ensures r == Normal <==> 12.0 <= rr <= 20.0
    ensures r != Normal <==> r == Abnormal
  {
    assert Normal[0] != Abnormal[0];
    if 12.0 <= rr <= 20.0 then Normal else Abnormal
  }

  /** The oxygen-saturation status. */
  function OxygenStatus(o2: real): (r: string)
    ensures r == Normal <==> o2 >= 95.0
    ensures r != Normal <==> r == LowOxygen
  {
    assert Normal[0] != LowOxygen[0];
    if o2 >= 95.0 then Normal else LowOxygen
  }

  // ---------------------------------------------------------------------
  // Vital-sign rows

  /** A row of the vital-signs table. */
  datatype VitalRow = VitalRow(measurement: string, value: string, unit: string, status: string)

  function RenderRow(r: VitalRow): string {
    "| " + r.measurement + " | " + r.value + " | " + r.unit + " | " + r.status + " |\n"
  }

  function Rendered(rows: seq<VitalRow>): (lines: seq<string>)
    ensures |lines| == |rows|
  {
    seq(|rows|, i requires 0 <= i < |rows| => RenderRow(rows[i]))
  }

  const VitalsHeader: string :=
    "\n**Vital Signs:**\n\n| Measurement | Value | Unit | Status |\n|-------------|-------|------|--------|\n"
  const NoVitals: string := "No vital signs data available."
  const VitalsError: string := "Error formatting vital signs data."

  /** The known measurements, in the order their rows appear. */
  datatype Vital = BloodPressure | HeartRate | Temperature | RespiratoryRate | OxygenSaturation | Weight | Height

  const VitalOrder: seq<Vital> := [BloodPressure, HeartRate, Temperature, RespiratoryRate, OxygenSaturation, Weight, Height]

  /** The eight keys the known measurements read; every other key is a
      custom field. */
  const KnownFields: seq<string> := ["blood_pressure_systolic", "blood_pressure_diastolic", "heart_rate",
    "temperature", "respiratory_rate", "oxygen_saturation", "weight", "height"]

  function Label(v: Vital): string {
    match v
    case BloodPressure => "Blood Pressure"
    case HeartRate => "Heart Rate"
    case Temperature => "Temperature"
    case RespiratoryRate => "Respiratory Rate"
    case OxygenSaturation => "Oxygen Saturation"
    case Weight => "Weight"
    case Height => "Height"
  }

  function Unit(v: Vital): string {
    match v
    case BloodPressure => "mmHg"
    case HeartRate => "bpm"
    case Temperature => "°F"
    case RespiratoryRate => "breaths/min"
    case OxygenSaturation => "%"
    case Weight => "lbs"
    case Height => "inches"
  }

  /** The key a single-valued measurement is stored under. */
  function Key(v: Vital): string
    requires v != BloodPressure
  {
    match v
    case HeartRate => "heart_rate"
    case Temperature => "temperature"
    case RespiratoryRate => "respiratory_rate"
    case OxygenSaturation => "oxygen_saturation"
    case Weight => "weight"
    case Height => "height"
  }

  /** `vital_signs.get(key)` */
  function Get(d: seq<(string, Json)>, key: string): Json {
    GetOr(d, key, JNull)
  }

  /** Whether the measurement gets a row: its value is truthy; blood
      pressure needs both readings truthy. */
  predicate Present(v: Vital, d: seq<(string, Json)>) {
    if v == BloodPressure then Truthy(Get(d, "blood_pressure_systolic")) && Truthy(Get(d, "blood_pressure_diastolic"))
    else Truthy(Get(d, Key(v)))
  }

  /** The status of a single-valued measurement; None when a comparison
      raises. Weight and height are not compared. */
  function StatusOf(v: Vital, j: Json): Option<string>
    requires v != BloodPressure
  {
    match v
    case Weight => Some("Measured")
    case Height => Some("Measured")
    case _ =>
      match Num(j)
      case None => None
      case Some(x) =>
        Some(match v
             case HeartRate => HeartRateStatus(x)
             case Temperature => TempStatus(x)
             case RespiratoryRate => RespiratoryStatus(x)
             case _ => OxygenStatus(x))
  }

  /** The rows one known measurement contributes: none when it is missing
      or falsy, else one row (None when computing its status raises). */
  function RowsOf(v: Vital, d: seq<(string, Json)>, repr: Repr): (r: Option<seq<VitalRow>>)
    ensures r.Some? ==> |r.value| == (if Present(v, d) then 1 else 0)
    ensures r.Some? ==> forall row :: row in r.value ==> row.measurement == Label(v) && row.unit == Unit(v)
    ensures r.None? ==> Present(v, d)
    ensures r.Some? && Present(v, d) && v == BloodPressure ==>
      var sy := Get(d, "blood_pressure_systolic");
      var di := Get(d, "blood_pressure_diastolic");
      r.value[0].value == Display(sy, repr) + "/" + Display(di, repr) && BpStatusOf(sy, di) == Some(r.value[0].status)
    ensures r.Some? && Present(v, d) && v != BloodPressure ==>
      r.value[0].value == Display(Get(d, Key(v)), repr) && StatusOf(v, Get(d, Key(v))) == Some(r.value[0].status)
  {
    if !Present(v, d) then Some([])
    else if v == BloodPressure then
      var s := Get(d, "blood_pressure_systolic");
      var di := Get(d, "blood_pressure_diastolic");
      match BpStatusOf(s, di)
      case None => None
      case Some(st) => Some([VitalRow(Label(v), Display(s, repr) + "/" + Display(di, repr), Unit(v), st)])
    else
      var j := Get(d, Key(v));
      match StatusOf(v, j)
      case None => None
      case Some(st) => Some([VitalRow(Label(v), Display(j, repr), Unit(v), st)])
  }

  /** The measurements of vs that are present in d, in vs's order. */
  function PresentVitals(vs: seq<Vital>, d: seq<(string, Json)>): seq<Vital> {
    if vs == [] then []
    else PresentVitals(vs[..|vs| - 1], d) + (if Present(vs[|vs| - 1], d) then [vs[|vs| - 1]] else [])
  }

  /** The rows of the known measurements vs, in order; None as soon as one
      of them raises. The rows are exactly one per present measurement, in
      the same order. */
  function KnownRows(vs: seq<Vital>, d: seq<(string, Json)>, repr: Repr): (r: Option<seq<VitalRow>>)
    ensures r.Some? ==>
      var present := PresentVitals(vs, d);
      |r.value| == |present| &&
      forall i :: 0 <= i < |present| ==>
        r.value[i].measurement == Label(present[i]) && r.value[i].unit == Unit(present[i])
    ensures r.Some? ==>
      var present := PresentVitals(vs, d);
      forall i :: 0 <= i < |present| ==> RowsOf(present[i], d, repr) == Some([r.value[i]])
    decreases |vs|
  {
    if vs == [] then Some([])
    else
      match KnownRows(vs[..|vs| - 1], d, repr)
      case None => None
      case Some(rows) =>
        match RowsOf(vs[|vs| - 1], d, repr)
        case None => None
        case Some(more) => Some(rows + more)
  }

  /** The keys outside the eight known ones, with their values, in the
      dict's order. */
  function CustomFields(d: seq<(string, Json)>): seq<(string, Json)> {
    if d == [] then []
    else (if d[0].0 in KnownFields then [] else [d[0]]) + CustomFields(d[1..])
  }

  /** The custom fields are exactly the entries whose key is not one of
      the eight known ones. */
  lemma {:induction false} CustomFieldsExact(d: seq<(string, Json)>)
    ensures forall e :: e in CustomFields(d) <==> e in d && e.0 !in KnownFields
  {
    if d != [] {
      CustomFieldsExact(d[1..]);
      assert forall e :: e in d <==> e == d[0] || e in d[1..];
    }
  }

  /** `str.title()` on ASCII text: a letter is upper-cased when it starts a
      word (it follows a non-letter, or starts the text) and lower-cased
      otherwise; other characters are unchanged. */
  function TitleChar(c: char, afterLetter: bool): char {
    if !IsLetter(c) then c
    else if afterLetter then ToLowerChar(c)
    else ToUpperChar(c)
  }

  function TitleAfter(s: string, afterLetter: bool): (r: string)
    ensures |r| == |s|
  {
    if s == [] then []
    else [TitleChar(s[0], afterLetter)] + TitleAfter(s[1..], IsLetter(s[0]))
  }

  /** Each character is cased by whether the character before it is a
      letter (the first by `afterLetter`). */
  lemma {:induction false} TitleCase(s: string, afterLetter: bool)
    ensures forall i :: 0 <= i < |s| ==>
      TitleAfter(s, afterLetter)[i] == TitleChar(s[i], if i == 0 then afterLetter else IsLetter(s[i - 1]))
  {
    if s != [] {
      TitleCase(s[1..], IsLetter(s[0]));
      var r := TitleAfter(s, afterLetter);
      forall i | 0 < i < |s|
        ensures r[i] == TitleChar(s[i], IsLetter(s[i - 1]))
      {
        assert r[i] == TitleAfter(s[1..], IsLetter(s[0]))[i - 1];
        assert s[1..][i - 1] == s[i];
        if i > 1 {
          assert s[1..][i - 2] == s[i - 1];
        }
      }
    }
  }

  function Title(s: string): string {
    TitleAfter(s, false)
  }

  /** The label of a custom field: underscores become spaces, then title
      case. */
  function CustomLabel(key: string): string {
    Title(ReplaceAll(key, "_", " "))
  }

  /** The row of one custom field: its label, its displayed value, no
      unit and the status "Recorded". */
  function CustomRow(field: (string, Json), repr: Repr): VitalRow {
    VitalRow(CustomLabel(field.0), Display(field.1, repr), "-", "Recorded")
  }

  /** One row per custom field, in order. */
  function CustomRows(fields: seq<(string, Json)>, repr: Repr): (rows: seq<VitalRow>)
    ensures |rows| == |fields|
    decreases |fields|
  {
    if fields == [] then []
    else CustomRows(fields[..|fields| - 1], repr) + [CustomRow(fields[|fields| - 1], repr)]
  }

  /** The row at each position is the row of the field at that position. */
  lemma {:induction false} CustomRowsAt(fields: seq<(string, Json)>, repr: Repr)
    ensures forall i :: 0 <= i < |fields| ==> CustomRows(fields, repr)[i] == CustomRow(fields[i], repr)
    decreases |fields|
  {
    if fields != [] {
      var init := fields[..|fields| - 1];
      CustomRowsAt(init, repr);
      forall i | 0 <= i < |init| ensures CustomRows(fields, repr)[i] == CustomRow(fields[i], repr) {
        assert init[i] == fields[i];
      }
    }
  }

  /** One more field adds its own row at the end. */
  lemma CustomRowsStep(fields: seq<(string, Json)>, i: nat, repr: Repr)
    requires i < |fields|
    ensures CustomRows(fields[..i + 1], repr) == CustomRows(fields[..i], repr) + [CustomRow(fields[i], repr)]
  {
    assert fields[..i + 1][..i] == fields[..i];
  }

  /** What `format_vital_signs_markdown` returns. */
  function VitalSignsMarkdown(input: Json, loads: Loads, repr: Repr): string {
    if !Truthy(input) then NoVitals
    else
      var parsed := if input.JStr? then loads(input.s) else Ok(input);
      if parsed.Err? || !parsed.value.JObj? then VitalsError
      else
        var d := parsed.value.fields;
        match KnownRows(VitalOrder, d, repr)
        case None => VitalsError
        case Some(rows) => VitalsHeader + Concat(Rendered(rows + CustomRows(CustomFields(d), repr)))
  }

  /** A formatted dict lists the present known measurements in the fixed
      order, then every custom field in the dict's order under its title-
      cased label; missing and falsy known values give no row. */
  lemma VitalRowsLayout(d: seq<(string, Json)>, repr: Repr)
    requires KnownRows(VitalOrder, d, repr).Some?
    ensures var known := KnownRows(VitalOrder, d, repr).value;
      var present := PresentVitals(VitalOrder, d);
      var custom := CustomFields(d);
      var rows := known + CustomRows(custom, repr);
      |rows| == |present| + |custom| &&
      (forall i :: 0 <= i < |present| ==> rows[i].measurement == Label(present[i])) &&
      rows[|present|..] == CustomRows(custom, repr)
  {
    var known := KnownRows(VitalOrder, d, repr).value;
    RowsLayout(known, PresentVitals(VitalOrder, d), CustomRows(CustomFields(d), repr));
  }

  lemma RowsLayout(known: seq<VitalRow>, present: seq<Vital>, extra: seq<VitalRow>)
    requires |known| == |present|
    requires forall i :: 0 <= i < |present| ==> known[i].measurement == Label(present[i])
    ensures var rows := known + extra;
      (forall i :: 0 <= i < |present| ==> rows[i].measurement == Label(present[i])) &&
      rows[|present|..] == extra
  {
    var rows := known + extra;
    forall i | 0 <= i < |present| ensures rows[i].measurement == Label(present[i]) {
      assert rows[i] == known[i];
    }
  }

  /** Heart rate appears exactly when the stored value is truthy, and blood
      pressure exactly when both readings are. */
  lemma {:induction false} PresentVitalsIn(vs: seq<Vital>, d: seq<(string, Json)>, v: Vital)
    ensures v in PresentVitals(vs, d) <==> v in vs && Present(v, d)
    decreases |vs|
  {
    if vs != [] {
      PresentVitalsIn(vs[..|vs| - 1], d, v);
      assert v in vs <==> v in vs[..|vs| - 1] || v == vs[|vs| - 1] by {
        assert vs == vs[..|vs| - 1] + [vs[|vs| - 1]];
      }
    }
  }

  /** Formatting a dict that is empty, or a missing value, says there is no
      data; so does any other falsy input. */
  lemma NoVitalsForFalsyInput(input: Json, loads: Loads, repr: Repr)
    requires !Truthy(input)
    ensures VitalSignsMarkdown(input, loads, repr) == NoVitals
  {
  }

  lemma RenderedAppend(a: seq<VitalRow>, b: seq<VitalRow>)
    ensures Rendered(a + b) == Rendered(a) + Rendered(b)
  {
  }

  /** `format_vital_signs_markdown(vital_signs_json)`: the header, then
      the known measurements' rows, then the custom fields' rows. */
  method FormatVitalSignsMarkdown(input: Json, loads: Loads, repr: Repr) returns (table: string)
    ensures table == VitalSignsMarkdown(input, loads, repr)
  {
    if !Truthy(input) {
      return NoVitals;
    }
    var parsed := if input.JStr? then loads(input.s) else Ok(input);
    if parsed.Err? || !parsed.value.JObj? {
      return VitalsError;
    }
    var d := parsed.value.fields;
    var known := KnownRowsText(d, repr);
    if known.None? {
      return VitalsError;
    }
    var custom := CustomRowsText(CustomFields(d), repr);
    table := VitalsHeader + known.value + custom;
    MarkdownOfDict(input, loads, repr, d);
  }

  /** The table for input that parses to a dict whose statuses compare. */
  lemma MarkdownOfDict(input: Json, loads: Loads, repr: Repr, d: seq<(string, Json)>)
    requires Truthy(input)
    requires (if input.JStr? then loads(input.s) else Ok(input)) == Ok(JObj(d))
    requires KnownRows(VitalOrder, d, repr).Some?
    ensures VitalSignsMarkdown(input, loads, repr) ==
      VitalsHeader + Concat(Rendered(KnownRows(VitalOrder, d, repr).value)) + Concat(Rendered(CustomRows(CustomFields(d), repr)))
  {
    var rows := KnownRows(VitalOrder, d, repr).value;
    var more := CustomRows(CustomFields(d), repr);
    RenderedAppend(rows, more);
    ConcatAppend(Rendered(rows), Rendered(more));
  }

  /** The known measurements' rows, added one measurement at a time in the
      fixed order; None when a status comparison raises. */
  method KnownRowsText(d: seq<(string, Json)>, repr: Repr) returns (text: Option<string>)
    ensures KnownRows(VitalOrder, d, repr).None? ==> text.None?
    ensures KnownRows(VitalOrder, d, repr).Some? ==> text == Some(Concat(Rendered(KnownRows(VitalOrder, d, repr).value)))
  {
    var table := "";
    ghost var rows: seq<VitalRow> := [];
    var k := 0;
    while k < |VitalOrder|
      invariant 0 <= k <= |VitalOrder|
      invariant KnownRows(VitalOrder[..k], d, repr) == Some(rows)
      invariant table == Concat(Rendered(rows))
    {
      var more := RowsOf(VitalOrder[k], d, repr);
      KnownRowsStep(VitalOrder, k, d, repr, rows);
      if more.None? {
        KnownRowsPrefixFails(VitalOrder, k + 1, d, repr);
        return None;
      }
      RenderedAppend(rows, more.value);
      ConcatAppend(Rendered(rows), Rendered(more.value));
      rows := rows + more.value;
      table := table + Concat(Rendered(more.value));
      k := k + 1;
    }
    assert VitalOrder[..k] == VitalOrder;
    return Some(table);
  }

  /** The custom fields' rows, one per field in order. */
  method CustomRowsText(custom: seq<(string, Json)>, repr: Repr) returns (table: string)
    ensures table == Concat(Rendered(CustomRows(custom, repr)))
  {
    table := "";
    var i := 0;
    while i < |custom|
      invariant 0 <= i <= |custom|
      invariant table == Concat(Rendered(CustomRows(custom[..i], repr)))
    {
      var (key, value) := custom[i];
      var row := VitalRow(CustomLabel(key), Display(value, repr), "-", "Recorded");
      CustomRowsStep(custom, i, repr);
      RenderedAppend(CustomRows(custom[..i], repr), [row]);
      ConcatAppend(Rendered(CustomRows(custom[..i], repr)), Rendered([row]));
      assert Rendered([row]) == [RenderRow(row)];
      table := table + RenderRow(row);
      i := i + 1;
    }
    assert custom[..i] == custom;
  }

  /** One more measurement extends the rows of a prefix by its own rows. */
  lemma KnownRowsStep(vs: seq<Vital>, k: nat, d: seq<(string, Json)>, repr: Repr, rows: seq<VitalRow>)
    requires k < |vs| && KnownRows(vs[..k], d, repr) == Some(rows)
    ensures RowsOf(vs[k], d, repr).None? ==> KnownRows(vs[..k + 1], d, repr).None?
    ensures RowsOf(vs[k], d, repr).Some? ==> KnownRows(vs[..k + 1], d, repr) == Some(rows + RowsOf(vs[k], d, repr).value)
  {
    assert vs[..k + 1][..k] == vs[..k] && vs[..k + 1][k] == vs[k];
  }

  /** Once a prefix of the measurements raises, so does every longer one. */
  lemma {:induction false} KnownRowsPrefixFails(vs: seq<Vital>, n: nat, d: seq<(string, Json)>, repr: Repr)
    requires n <= |vs| && KnownRows(vs[..n], d, repr).None?
    ensures KnownRows(vs, d, repr).None?
    decreases |vs| - n
  {
    if n < |vs| {
      assert vs[..n + 1][..n] == vs[..n];
      KnownRowsPrefixFails(vs, n + 1, d, repr);
    } else {
      assert vs[..n] == vs;
    }
  }

  // ---------------------------------------------------------------------
  // Lab results

  const LabsHeader: string :=
    "\n**Lab Results:**\n\n| Test Name | Value | Unit | Reference Range | Status |\n|-----------|-------|------|-----------------|--------|\n"
  const NoLabs: string := "No lab results available."
  const LabsNotRecognized: string := "Lab results data format not recognized."
  const LabsFormatError: string := "Lab results data format error."
  const LabsError: string := "Error formatting lab results data."

  /** `str.capitalize()` on ASCII text. */
  function Capitalize(s: string): string {
    if s == [] then [] else [ToUpperChar(s[0])] + Lower(s[1..])
  }

  /** The status column: the status lower-cased, the four known ones with
      their labels, anything else capitalised. */
  function LabStatusDisplay(status: string): string {
    var st := Lower(status);
    if st == "normal" then Normal
    else if st == "high" then High
    else if st == "low" then Low
    else if st == "pending" then Pending
    else Capitalize(st)
  }

  /** Statuses are matched whatever their case, and an unknown status is
      shown as the same word, capitalised: its first letter upper-case and
      every later letter lower-case. */
  lemma LabStatusCases(status: string)
    ensures Lower(status) == "normal" ==> LabStatusDisplay(status) == Normal
    ensures Lower(status) == "high" ==> LabStatusDisplay(status) == High
    ensures Lower(status) == "low" ==> LabStatusDisplay(status) == Low
    ensures Lower(status) == "pending" ==> LabStatusDisplay(status) == Pending
    ensures Lower(status) !in ["normal", "high", "low", "pending"] ==>
      Lower(LabStatusDisplay(status)) == Lower(status) &&
      (status != [] ==> IsUpperChar(LabStatusDisplay(status)[0]) || !IsLetter(status[0]))
    ensures Lower(status) !in ["normal", "high", "low", "pending"] ==>
      var d := LabStatusDisplay(status);
      |d| == |status| &&
      (status != [] ==> d[0] == ToUpperChar(status[0])) &&
      forall i :: 1 <= i < |status| ==> d[i] == ToLowerChar(status[i])
  {
    var st := Lower(status);
    if st !in ["normal", "high", "low", "pending"] && st != [] {
      var c := Capitalize(st);
      assert c[1..] == Lower(st[1..]);
      assert Lower(c)[0] == ToLowerChar(ToUpperChar(st[0])) == st[0];
      assert Lower(c) == st;
      assert c[0] == ToUpperChar(status[0]);
      forall i | 1 <= i < |status| ensures c[i] == ToLowerChar(status[i]) {
        assert c[i] == c[1..][i - 1];
      }
    }
  }

  /** One table row for a lab entry; None when the entry is not a dict or
      its status is not text (the `.get` or `.lower()` call raises). */
  function LabRow(lab: Json, repr: Repr): Option<string> {
    if !lab.JObj? then None
    else
      var f := lab.fields;
      var status := GetOr(f, "status", JStr("Unknown"));
      if !status.JStr? then None
      else Some("| " + Display(GetOr(f, "test_name", JStr("Unknown")), repr) +
                " | " + Display(GetOr(f, "value", JStr("N/A")), repr) +
                " | " + Display(GetOr(f, "unit", JStr("")), repr) +
                " | " + Display(GetOr(f, "reference_range", JStr("N/A")), repr) +
                " | " + LabStatusDisplay(status.s) + " |\n")
  }

  /** How one entry is rendered as a row. */
  type RenderLab = Json -> Option<string>

  /** The row renderer of the lab table. */
  function LabRenderer(repr: Repr): RenderLab {
    lab => LabRow(lab, repr)
  }

  /** The rows of the entries: one per entry, in order, unless some entry
      cannot be rendered. */
  function LabRows(labs: seq<Json>, render: RenderLab): (r: Option<seq<string>>)
    ensures r.Some? ==> |r.value| == |labs| && forall i :: 0 <= i < |labs| ==> render(labs[i]) == Some(r.value[i])
    decreases |labs|
  {
    if labs == [] then Some([])
    else
      match LabRows(labs[..|labs| - 1], render)
      case None => None
      case Some(rows) =>
        match render(labs[|labs| - 1])
        case None => None
        case Some(row) =>
          assert forall i :: 0 <= i < |labs| - 1 ==> labs[i] == labs[..|labs| - 1][i];
          Some(rows + [row])
  }

  /** The table fails exactly when some entry cannot be rendered. */
  lemma {:induction false} LabRowsFailure(labs: seq<Json>, render: RenderLab)
    ensures LabRows(labs, render).None? <==> exists i :: 0 <= i < |labs| && render(labs[i]).None?
    decreases |labs|
  {
    if labs != [] {
      var init := labs[..|labs| - 1];
      LabRowsFailure(init, render);
      assert forall i :: 0 <= i < |init| ==> labs[i] == init[i];
    }
  }

  /** The entries to tabulate, or the final message when there are none to
      tabulate. */
  datatype Prepared = Final(text: string) | Entries(labs: seq<Json>)

  /** After the type dispatch: falsy means no results, a value without a
      length raises, and only a list is tabulated. */
  function CheckParsed(v: Json): Prepared {
    if !Truthy(v) then Final(NoLabs)
    else if !(v.JStr? || v.JArr? || v.JObj?) then Final(LabsError)
    else if !v.JArr? then Final(LabsFormatError)
    else Entries(v.items)
  }

  /** The type dispatch on the stored value: text is parsed (a parsed dict
      is not wrapped), a list is used as it is, a dict becomes a one-entry
      list, anything else is not recognised. */
  function PrepareLabs(input: Json, loads: Loads): Prepared {
    if !Truthy(input) then Final(NoLabs)
    else
      match input
      case JStr(t) => (match loads(t) case Err(_) => Final(LabsError) case Ok(v) => CheckParsed(v))
      case JArr(_) => CheckParsed(input)
      case JObj(_) => CheckParsed(JArr([input]))
      case _ => Final(LabsNotRecognized)
  }

  /** What `format_lab_results_markdown` returns. */
  function LabResultsMarkdown(input: Json, loads: Loads, repr: Repr): string {
    match PrepareLabs(input, loads)
    case Final(t) => t
    case Entries(labs) => LabTable(labs, LabRenderer(repr))
  }

  /** The header and the rows, or the error message when an entry cannot
      be rendered. */
  function LabTable(labs: seq<Json>, render: RenderLab): string {
    match LabRows(labs, render)
    case None => LabsError
    case Some(rows) => LabsHeader + Concat(rows)
  }

  /** A single dict is tabulated as the one-entry list holding it. */
  lemma SingleDictIsOneEntry(f: seq<(string, Json)>, loads: Loads, repr: Repr)
    requires f != []
    ensures LabResultsMarkdown(JObj(f), loads, repr) == LabResultsMarkdown(JArr([JObj(f)]), loads, repr)
  {
  }

  /** Empty input, and text that parses to an empty list, both say there
      are no results. */
  lemma NoLabsForEmpty(input: Json, loads: Loads, repr: Repr)
    requires !Truthy(input) || (input.JStr? && input.s != [] && loads(input.s) == Ok(JArr([])))
    ensures LabResultsMarkdown(input, loads, repr) == NoLabs
  {
  }

  /** A tabulated list has exactly one row per entry after the header, in
      the entries' order. */
  lemma OneRowPerEntry(labs: seq<Json>, loads: Loads, repr: Repr)
    requires labs != [] && forall i :: 0 <= i < |labs| ==> LabRow(labs[i], repr).Some?
    ensures LabRows(labs, LabRenderer(repr)).Some?
    ensures var rows := LabRows(labs, LabRenderer(repr)).value;
      |rows| == |labs| &&
      LabResultsMarkdown(JArr(labs), loads, repr) == LabsHeader + Concat(rows) &&
      forall i :: 0 <= i < |labs| ==> rows[i] == LabRow(labs[i], repr).value
  {
    var render := LabRenderer(repr);
    assert forall i :: 0 <= i < |labs| ==> render(labs[i]).Some?;
    AllRendered(labs, render);
    ListTabulated(labs, loads, repr);
  }

  /** A non-empty list goes straight to the table. */
  lemma ListTabulated(labs: seq<Json>, loads: Loads, repr: Repr)
    requires labs != []
    ensures LabResultsMarkdown(JArr(labs), loads, repr) == LabTable(labs, LabRenderer(repr))
  {
    assert PrepareLabs(JArr(labs), loads) == Entries(labs);
  }

  lemma AllRendered(labs: seq<Json>, render: RenderLab)
    requires forall i :: 0 <= i < |labs| ==> render(labs[i]).Some?
    ensures LabRows(labs, render).Some?
  {
    LabRowsFailure(labs, render);
  }

  lemma LabRowsSnoc(labs: seq<Json>, i: nat, rows: seq<string>, row: string, render: RenderLab)
    requires i < |labs| && LabRows(labs[..i], render) == Some(rows) && render(labs[i]) == Some(row)
    ensures LabRows(labs[..i + 1], render) == Some(rows + [row])
  {
    var l := labs[..i + 1];
    assert |l| == i + 1 && l[..|l| - 1] == labs[..i] && l[|l| - 1] == labs[i];
  }

  /** `format_lab_results_markdown(lab_results_json)`: the type dispatch,
      then the table. */
  method FormatLabResultsMarkdown(input: Json, loads: Loads, repr: Repr) returns (table: string)
    ensures table == LabResultsMarkdown(input, loads, repr)
  {
    var prepared := PrepareLabs(input, loads);
    if prepared.Final? {
      return prepared.text;
    }
    var rows := LabTableText(prepared.labs, repr);
    table := if rows.Some? then rows.value else LabsError;
  }

  /** The header followed by the rows, one per entry added in order; None
      when an entry cannot be rendered. */
  method LabTableText(labs: seq<Json>, repr: Repr) returns (text: Option<string>)
    ensures LabRows(labs, LabRenderer(repr)).None? ==> text.None?
    ensures LabRows(labs, LabRenderer(repr)).Some? ==> text == Some(LabsHeader + Concat(LabRows(labs, LabRenderer(repr)).value))
  {
    ghost var render := LabRenderer(repr);
    var body := "";
    ghost var rows: seq<string> := [];
    var i := 0;
    while i < |labs|
      invariant 0 <= i <= |labs|
      invariant LabRows(labs[..i], render) == Some(rows)
      invariant body == Concat(rows)
    {
      var row := LabRow(labs[i], repr);
      if row.None? {
        LabRowsFailure(labs, render);
        return None;
      }
      LabRowsSnoc(labs, i, rows, row.value, render);
      ConcatAppend(rows, [row.value]);
      assert Concat([row.value]) == row.value;
      rows := rows + [row.value];
      body := body + row.value;
      i := i + 1;
    }
    assert labs[..i] == labs;
    return Some(LabsHeader + body);
  }
}

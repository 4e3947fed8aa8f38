/** Template-based SQL generation: a fixed, ordered table of question
    patterns, each template with the SQL it produces. A question is
    lower-cased and stripped, the templates are tried in definition order and
    the patterns of each in list order, and the first pattern that matches
    decides the SQL. Captured groups are bound positionally to the template's
    declared parameters and substituted into the SQL's `{name}` placeholders.

    The regular-expression engine is an oracle: `search(pattern, text)` is
    `re.search`, giving the captured groups of a match or None. */
module QueryTemplates {
  import opened Common

  /** `re.search(pattern, text)`: None, or the match's `groups()`. */
  type Search = (string, string) -> Option<seq<string>>

  // ---------------------------------------------------------------------
  // SQL text with placeholders

  /** A piece of a template's SQL: literal text (which holds no brace) or a
      `{name}` placeholder. */
  datatype Chunk = Text(s: string) | Slot(name: string)

  /** The SQL text as written in the template, placeholders included. */
  function Render(sql: seq<Chunk>): string {
    if sql == [] then []
    else (match sql[0]
          case Text(s) => s
          case Slot(n) => "{" + n + "}") + Render(sql[1..])
  }

  /** The text of the KeyError `str.format` raises for a missing name. */
  function KeyError(name: string): string {
    "'" + name + "'"
  }

  /** `sql.format(**params)`: every placeholder replaced by the value bound
      to its name; the leftmost unbound name raises KeyError. Unused
      parameters are ignored. */
  function Format(sql: seq<Chunk>, params: seq<(string, string)>): Result<string> {
    if sql == [] then Ok([])
    else
      var head: Result<string> :=
        match sql[0]
        case Text(s) => Ok(s)
        case Slot(n) => (match Lookup(params, n) case Some(v) => Ok(v) case None => Err(KeyError(n)));
      if head.Err? then head
      else match Format(sql[1..], params)
        case Ok(rest) => Ok(head.value + rest)
        case Err(e) => Err(e)
  }

  /** Every placeholder the SQL holds. */
  function Slots(sql: seq<Chunk>): set<string> {
    set c | c in sql && c.Slot? :: c.name
  }

  lemma {:induction false} SlotsCons(sql: seq<Chunk>)
    requires sql != []
    ensures Slots(sql) == Slots(sql[..1]) + Slots(sql[1..])
  {
    assert sql == sql[..1] + sql[1..];
    forall n | n in Slots(sql) ensures n in Slots(sql[..1]) + Slots(sql[1..]) {
      var c :| c in sql && c.Slot? && c.name == n;
      assert c in sql[..1] || c in sql[1..];
    }
  }

  /** The written SQL shows `{n}` for each of its placeholders. */
  lemma {:induction false} RenderShowsSlot(sql: seq<Chunk>, n: string)
    requires Slot(n) in sql
    ensures Contains(Render(sql), "{" + n + "}")
  {
    var slot := "{" + n + "}";
    var tail := Render(sql[1..]);
    if sql[0] == Slot(n) {
      calc {
        Render(sql);
        slot + tail;
        [] + slot + tail;
      }
      ContainsConcat([], slot, tail);
    } else {
      RenderShowsSlot(sql[1..], n);
      var head := match sql[0] case Text(s) => s case Slot(m) => "{" + m + "}";
      assert Render(sql) == head + tail;
      ContainsPrepend(head, tail, slot);
    }
  }

  /** Formatting succeeds exactly when every placeholder has a value. */
  lemma {:induction false} FormatOkIff(sql: seq<Chunk>, params: seq<(string, string)>)
    ensures Format(sql, params).Ok? <==> forall n :: n in Slots(sql) ==> Lookup(params, n).Some?
  {
    if sql != [] {
      FormatOkIff(sql[1..], params);
      SlotsCons(sql);
      assert sql[..1] == [sql[0]];
      assert Slots(sql[..1]) == if sql[0].Slot? then {sql[0].name} else {};
    }
  }

  /** Formatting text with no placeholder gives the text back. */
  lemma {:induction false} FormatWithoutSlots(sql: seq<Chunk>, params: seq<(string, string)>)
    requires forall c :: c in sql ==> c.Text?
    ensures Format(sql, params) == Ok(Render(sql))
  {
    if sql != [] {
      FormatWithoutSlots(sql[1..], params);
    }
  }

  // ---------------------------------------------------------------------
  // The template table (`_init_templates`)

  datatype Template = Template(
    name: string,
    patterns: seq<string>,
    sql: seq<Chunk>,
    params: seq<string>,
    fieldMapping: Option<seq<(string, string)>>)

  const VisitsCountSql: seq<Chunk> := [
    Text("SELECT COUNT(*) as visit_count FROM visits WHERE visit_date >= DATE_SUB(NOW(), INTERVAL "),
    Slot("days"),
    Text(" DAY);")]

  const AvgVitalSql: seq<Chunk> := [
    Text("SELECT AVG(JSON_EXTRACT(vital_signs, '$."),
    Slot("field"),
    Text("')) as avg_"),
    Slot("field"),
    Text(" FROM visits WHERE vital_signs IS NOT NULL;")]

  const InactivePatientsSql: seq<Chunk> := [
    Text("SELECT p.patient_id, p.first_name, p.last_name, MAX(v.visit_date) as last_visit\n                         FROM patients p\n                         LEFT JOIN visits v ON p.id = v.patient_id\n                         GROUP BY p.id\n                         HAVING last_visit IS NULL OR last_visit < DATE_SUB(NOW(), INTERVAL "),
    Slot("days"),
    Text(" DAY)\n                         ORDER BY last_visit;")]

  const PatientCountSql: string := "SELECT COUNT(*) as patient_count FROM patients;"

  const FieldMapping: seq<(string, string)> := [
    ("heart rate", "heart_rate"),
    ("hr", "heart_rate"),
    ("blood pressure", "blood_pressure_systolic"),
    ("bp", "blood_pressure_systolic"),
    ("temperature", "temperature"),
    ("temp", "temperature"),
    ("weight", "weight")]

  /** Position of `avg_vital_sign` in the table. */
  const AvgVitalIndex: nat := 5

  const VisitsCountTemplate: Template := Template("visits_count_days",
    ["how many visits.*(?:in|during|over).*(?:last|past)\\s+(\\d+)\\s+days?",
     "visits.*count.*(\\d+)\\s+days?",
     "number of visits.*(\\d+)\\s+days?"],
    VisitsCountSql, ["days"], None)

  const AvgDurationTemplate: Template := Template("avg_visit_duration",
    ["average.*visit.*duration", "avg.*visit.*time", "mean.*visit.*length"],
    [Text("SELECT AVG(duration_minutes) as avg_duration_minutes FROM visits WHERE duration_minutes IS NOT NULL;")],
    [], None)

  const PatientCountTemplate: Template := Template("patient_count",
    ["how many patients", "total.*patients", "number of patients", "patient count"],
    [Text(PatientCountSql)], [], None)

  const MostVisitsTemplate: Template := Template("most_visits_patient",
    ["which patient.*most visits", "patient.*most.*visits", "who.*most visits"],
    [Text("SELECT p.first_name, p.last_name, p.patient_id, COUNT(v.id) as visit_count \n                         FROM patients p \n                         JOIN visits v ON p.id = v.patient_id \n                         GROUP BY p.id \n                         ORDER BY visit_count DESC \n                         LIMIT 1;")],
    [], None)

  const VisitTypeTemplate: Template := Template("visit_type_count",
    ["how many.*(?:urgent|routine|follow-up|consultation).*visits", "count.*visit.*type", "visits by type"],
    [Text("SELECT visit_type, COUNT(*) as count FROM visits GROUP BY visit_type ORDER BY count DESC;")],
    [], None)

  const AvgVitalTemplate: Template := Template("avg_vital_sign",
    ["average.*(?:heart rate|blood pressure|temperature|weight)", "avg.*(?:hr|bp|temp)"],
    AvgVitalSql, ["field"], Some(FieldMapping))

  const InactivePatientsTemplate: Template := Template("inactive_patients",
    ["patients.*(?:haven\\'t|have not|no).*visit.*(\\d+)\\s+days", "inactive.*patients.*(\\d+)\\s+days"],
    InactivePatientsSql, ["days"], None)

  const CommonDiagnosesTemplate: Template := Template("common_diagnoses",
    ["most common.*diagnos", "top.*diagnos", "frequent.*diagnos"],
    [Text("SELECT diagnosis, COUNT(*) as count \n                         FROM visits \n                         WHERE diagnosis IS NOT NULL AND diagnosis != ''\n                         GROUP BY diagnosis \n                         ORDER BY count DESC \n                         LIMIT 10;")],
    [], None)

  /** The table, in definition order. */
  const Templates: seq<Template> := [
    VisitsCountTemplate, AvgDurationTemplate, PatientCountTemplate, MostVisitsTemplate,
    VisitTypeTemplate, AvgVitalTemplate, InactivePatientsTemplate, CommonDiagnosesTemplate]

  // ---------------------------------------------------------------------
  // First match

  /** Which template and which of its patterns matched, with the groups. */
  datatype Hit = Hit(template: nat, pattern: nat, groups: seq<string>)

  /** The first pattern of ps, from position j on, that matches text. */
  function PatternHitFrom(search: Search, ps: seq<string>, j: nat, text: string): Option<(nat, seq<string>)>
    decreases |ps| - j
  {
    if j >= |ps| then None
    else if search(ps[j], text).Some? then Some((j, search(ps[j], text).value))
    else PatternHitFrom(search, ps, j + 1, text)
  }

  /** The first template of ts, from position i on, one of whose patterns
      matches text, with the first such pattern. */
  function FirstHitFrom(search: Search, ts: seq<Template>, i: nat, text: string): Option<Hit>
    decreases |ts| - i
  {
    if i >= |ts| then None
    else match PatternHitFrom(search, ts[i].patterns, 0, text)
      case Some(h) => Some(Hit(i, h.0, h.1))
      case None => FirstHitFrom(search, ts, i + 1, text)
  }

  lemma {:induction false} PatternHitFromSound(search: Search, ps: seq<string>, j: nat, text: string)
    ensures match PatternHitFrom(search, ps, j, text)
      case Some(h) =>
        j <= h.0 < |ps| && search(ps[h.0], text) == Some(h.1) &&
        forall k :: j <= k < h.0 ==> search(ps[k], text) == None
      case None => forall k :: j <= k < |ps| ==> search(ps[k], text) == None
    decreases |ps| - j
  {
    if j < |ps| {
      PatternHitFromSound(search, ps, j + 1, text);
    }
  }

  /** The first hit is a real match, and no earlier template and no earlier
      pattern of the same template matches: precedence is definition order. */
  lemma {:induction false} FirstHitIsFirst(search: Search, ts: seq<Template>, i: nat, text: string)
    ensures match FirstHitFrom(search, ts, i, text)
      case Some(h) =>
        i <= h.template < |ts| && h.pattern < |ts[h.template].patterns| &&
        search(ts[h.template].patterns[h.pattern], text) == Some(h.groups) &&
        (forall t, p :: i <= t < h.template && 0 <= p < |ts[t].patterns| ==> search(ts[t].patterns[p], text) == None) &&
        (forall p :: 0 <= p < h.pattern ==> search(ts[h.template].patterns[p], text) == None)
      case None =>
        forall t, p :: i <= t < |ts| && 0 <= p < |ts[t].patterns| ==> search(ts[t].patterns[p], text) == None
    decreases |ts| - i
  {
    if i < |ts| {
      PatternHitFromSound(search, ts[i].patterns, 0, text);
      FirstHitIsFirst(search, ts, i + 1, text);
    }
  }

  // ---------------------------------------------------------------------
  // Parameter binding and filling

  /** The as-written binder, and the binder the code evidently intends
      (see the `{field}` finding). */
  datatype Binder = AsWritten | Corrected

  /** The value of the first `field_mapping` key that occurs in the text. */
  function MappedField(mapping: seq<(string, string)>, text: string): (r: Option<string>)
    ensures r.Some? <==> exists k :: 0 <= k < |mapping| && Contains(text, mapping[k].0)
    ensures r.Some? ==> exists k :: 0 <= k < |mapping| && Contains(text, mapping[k].0) && r.value == mapping[k].1 &&
                                    forall m :: 0 <= m < k ==> !Contains(text, mapping[m].0)
  {
    if mapping == [] then None
    else if Contains(text, mapping[0].0) then Some(mapping[0].1)
    else
      var r := MappedField(mapping[1..], text);
      assert forall k :: 1 <= k < |mapping| ==> mapping[k] == mapping[1..][k - 1];
      if r.Some? then
        ghost var k :| 0 <= k < |mapping[1..]| && Contains(text, mapping[1..][k].0) && r.value == mapping[1..][k].1 &&
          forall m :: 0 <= m < k ==> !Contains(text, mapping[1..][m].0);
        assert Contains(text, mapping[k + 1].0) && r.value == mapping[k + 1].1;
        r
      else r
  }

  /** The value given to declared parameter number i (from 0) named `name`.
      As written: only when the match has a group i + 1, that group's text,
      or for `field` the mapped name of the first mapping key in the text.
      Corrected: for `field` the mapped name whenever a key is in the text,
      whether or not the pattern captured anything; else group i + 1. */
  function Binding(b: Binder, t: Template, i: nat, groups: seq<string>, text: string): Option<string>
    requires i < |t.params|
  {
    var mapped := if t.params[i] == "field" && t.fieldMapping.Some? then MappedField(t.fieldMapping.value, text) else None;
    match b
    case AsWritten =>
      if i < |groups| then Some(if mapped.Some? then mapped.value else groups[i]) else None
    case Corrected =>
      if mapped.Some? then mapped
      else if i < |groups| then Some(groups[i]) else None
  }

  /** The `params` dict after the first k declared parameters. */
  function Bind(b: Binder, t: Template, k: nat, groups: seq<string>, text: string): seq<(string, string)>
    requires k <= |t.params|
  {
    if k == 0 then []
    else
      var last := match Binding(b, t, k - 1, groups, text)
        case Some(v) => [(t.params[k - 1], v)]
        case None => [];
      Bind(b, t, k - 1, groups, text) + last
  }

  /** The SQL for a matched template. As written, an empty `params` dict
      means the SQL is returned exactly as stored, placeholders and all;
      corrected, a template that declares parameters is always formatted. */
  function Fill(b: Binder, t: Template, params: seq<(string, string)>): Result<string> {
    match b
    case AsWritten => if params == [] then Ok(Render(t.sql)) else Format(t.sql, params)
    case Corrected => if t.params == [] then Ok(Render(t.sql)) else Format(t.sql, params)
  }

  /** `match(question)`: the SQL of the first matching template, None when
      nothing matches, an error when formatting raises. */
  function MatchSpec(b: Binder, search: Search, ts: seq<Template>, question: string): Result<Option<string>> {
    var text := Strip(Lower(question));
    match FirstHitFrom(search, ts, 0, text)
    case None => Ok(None)
    case Some(h) =>
      if h.template < |ts| then
        var t := ts[h.template];
        match Fill(b, t, Bind(b, t, |t.params|, h.groups, text))
        case Ok(sql) => Ok(Some(sql))
        case Err(e) => Err(e)
      else Ok(None)
  }

  /** Every pattern of the table, template by template. */
  function AllPatterns(ts: seq<Template>): seq<string> {
    if ts == [] then [] else ts[0].patterns + AllPatterns(ts[1..])
  }

  /** The first pattern in table order that matches the text is pattern p
      of template t, and the match has the groups g. */
  predicate FirstMatchIs(search: Search, ts: seq<Template>, text: string, t: nat, p: nat, g: seq<string>) {
    t < |ts| && p < |ts[t].patterns| &&
    search(ts[t].patterns[p], text) == Some(g) &&
    (forall t', p' :: 0 <= t' < t && 0 <= p' < |ts[t'].patterns| ==> search(ts[t'].patterns[p'], text) == None) &&
    (forall p' :: 0 <= p' < p ==> search(ts[t].patterns[p'], text) == None)
  }

  /** The first match in table order is the one the matcher finds. */
  lemma FirstMatchIsHit(search: Search, ts: seq<Template>, text: string, t: nat, p: nat, g: seq<string>)
    requires FirstMatchIs(search, ts, text, t, p, g)
    ensures FirstHitFrom(search, ts, 0, text) == Some(Hit(t, p, g))
  {
    FirstHitIsFirst(search, ts, 0, text);
  }

  /** Nothing matches exactly when no pattern of any template matches the
      lower-cased, stripped question; otherwise the result is SQL or an error. */
  lemma NoneIffNoPatternMatches(b: Binder, search: Search, ts: seq<Template>, question: string)
    ensures MatchSpec(b, search, ts, question) == Ok(None) <==>
      forall t, p :: 0 <= t < |ts| && 0 <= p < |ts[t].patterns| ==>
        search(ts[t].patterns[p], Strip(Lower(question))) == None
  {
    FirstHitIsFirst(search, ts, 0, Strip(Lower(question)));
  }

  /** Case and surrounding whitespace of the question do not matter: only
      the lower-cased, stripped text is searched. */
  lemma MatchIgnoresCaseAndPadding(b: Binder, search: Search, ts: seq<Template>, question: string, pad: string)
    requires forall i :: 0 <= i < |pad| ==> IsSpace(pad[i])
    ensures MatchSpec(b, search, ts, pad + Upper(question) + pad) == MatchSpec(b, search, ts, question)
  {
    var padded := pad + Upper(question) + pad;
    assert Lower(padded) == pad + Lower(question) + pad by {
      forall i | 0 <= i < |pad| ensures ToLowerChar(pad[i]) == pad[i] {
        assert IsSpace(pad[i]);
      }
      assert forall i :: 0 <= i < |question| ==> ToLowerChar(ToUpperChar(question[i])) == ToLowerChar(question[i]);
    }
    StripPadding(pad, Lower(question));
  }

  lemma {:induction false} StripPadding(pad: string, s: string)
    requires forall i :: 0 <= i < |pad| ==> IsSpace(pad[i])
    ensures Strip(pad + s + pad) == Strip(s)
  {
    TrimStartPadding(pad, s + pad);
    assert pad + s + pad == pad + (s + pad);
    TrimStartAppendSpaces(s, pad);
  }

  lemma {:induction false} TrimStartPadding(pad: string, s: string)
    requires forall i :: 0 <= i < |pad| ==> IsSpace(pad[i])
    ensures TrimStart(pad + s) == TrimStart(s)
  {
    if pad != [] {
      assert (pad + s)[1..] == pad[1..] + s;
      TrimStartPadding(pad[1..], s);
    } else {
      assert pad + s == s;
    }
  }

  /** Trailing spaces survive a left strip but not the right strip after it. */
  lemma {:induction false} TrimStartAppendSpaces(s: string, pad: string)
    requires forall i :: 0 <= i < |pad| ==> IsSpace(pad[i])
    ensures TrimEnd(TrimStart(s + pad)) == TrimEnd(TrimStart(s))
  {
    if s == [] {
      calc {
        TrimStart(s + pad);
        { assert s + pad == pad + []; }
        TrimStart(pad + []);
        { TrimStartPadding(pad, []); }
        TrimStart(s);
      }
    } else if IsSpace(s[0]) {
      calc {
        TrimEnd(TrimStart(s + pad));
        { TrimStartSpace(s + pad); assert (s + pad)[1..] == s[1..] + pad; }
        TrimEnd(TrimStart(s[1..] + pad));
        { TrimStartAppendSpaces(s[1..], pad); }
        TrimEnd(TrimStart(s[1..]));
        { TrimStartSpace(s); }
        TrimEnd(TrimStart(s));
      }
    } else {
      calc {
        TrimEnd(TrimStart(s + pad));
        { assert LeadingSpaces(s + pad) == 0; }
        TrimEnd(s + pad);
        { TrimEndPadding(s, pad); }
        TrimEnd(s);
        { assert LeadingSpaces(s) == 0; }
        TrimEnd(TrimStart(s));
      }
    }
  }

  lemma {:induction false} TrimEndPadding(s: string, pad: string)
    requires forall i :: 0 <= i < |pad| ==> IsSpace(pad[i])
    ensures TrimEnd(s + pad) == TrimEnd(s)
    decreases |pad|
  {
    if pad == [] {
      assert s + pad == s;
    } else {
      var shorter := pad[..|pad| - 1];
      assert (s + pad)[..|s + pad| - 1] == s + shorter;
      TrimEndPadding(s, shorter);
    }
  }

  /** A template without parameters gives its SQL exactly as written. */
  lemma VerbatimWithoutParams(b: Binder, search: Search, ts: seq<Template>, question: string, t: nat, p: nat, g: seq<string>)
    requires FirstMatchIs(search, ts, Strip(Lower(question)), t, p, g)
    requires ts[t].params == []
    ensures MatchSpec(b, search, ts, question) == Ok(Some(Render(ts[t].sql)))
  {
    FirstMatchIsHit(search, ts, Strip(Lower(question)), t, p, g);
  }

  /** "How many patients do we have?", and every other question whose first
      match is a `patient_count` pattern, gives exactly the stored query. */
  lemma PatientCountVerbatim(b: Binder, search: Search, ts: seq<Template>, question: string, p: nat, g: seq<string>)
    requires |ts| > 2 && ts[2] == PatientCountTemplate
    requires FirstMatchIs(search, ts, Strip(Lower(question)), 2, p, g)
    ensures MatchSpec(b, search, ts, question) == Ok(Some(PatientCountSql))
  {
    VerbatimWithoutParams(b, search, ts, question, 2, p, g);
    RenderText(PatientCountSql);
  }

  lemma RenderText(s: string)
    ensures Render([Text(s)]) == s
  {
    assert [Text(s)][1..] == [];
    assert s + [] == s;
  }

  /** Formatting a three-piece SQL text around one placeholder. */
  lemma FormatOneSlot(head: string, name: string, tail: string, v: string)
    ensures Format([Text(head), Slot(name), Text(tail)], [(name, v)]) == Ok(head + v + tail)
  {
    var params := [(name, v)];
    var sql := [Text(head), Slot(name), Text(tail)];
    assert Format([Text(tail)], params) == Ok(tail) by {
      assert [Text(tail)][1..] == [];
      assert tail + [] == tail;
    }
    assert Format([Slot(name), Text(tail)], params) == Ok(v + tail) by {
      assert [Slot(name), Text(tail)][1..] == [Text(tail)];
      assert Lookup(params, name) == Some(v);
    }
    assert sql[1..] == [Slot(name), Text(tail)];
    assert head + (v + tail) == head + v + tail;
  }

  /** Formatting the `avg_vital_sign` shape: two `{field}` placeholders. */
  lemma FormatTwoSlots(a: string, m: string, z: string, v: string)
    ensures Format([Text(a), Slot("field"), Text(m), Slot("field"), Text(z)], [("field", v)]) == Ok(a + v + m + v + z)
  {
    var params := [("field", v)];
    var sql := [Text(a), Slot("field"), Text(m), Slot("field"), Text(z)];
    FormatOneSlot(m, "field", z, v);
    assert Format(sql[1..], params) == Ok(v + (m + v + z)) by {
      assert sql[1..] == [Slot("field"), Text(m), Slot("field"), Text(z)];
      assert sql[1..][1..] == [Text(m), Slot("field"), Text(z)];
      assert Lookup(params, "field") == Some(v);
    }
    assert a + (v + (m + v + z)) == a + v + m + v + z;
  }

  /** A template with one declared parameter binds at most that one. */
  lemma BindOne(b: Binder, tm: Template, g: seq<string>, text: string)
    requires |tm.params| == 1
    ensures Bind(b, tm, 1, g, text) ==
      match Binding(b, tm, 0, g, text) case Some(v) => [(tm.params[0], v)] case None => []
  {
  }

  /** A one-placeholder template whose parameter is bound to v gives its
      SQL with v in the placeholder. */
  lemma OneSlotFilled(b: Binder, search: Search, ts: seq<Template>, question: string, t: nat, p: nat, g: seq<string>,
                      head: string, name: string, tail: string, v: string)
    requires FirstMatchIs(search, ts, Strip(Lower(question)), t, p, g)
    requires ts[t].sql == [Text(head), Slot(name), Text(tail)] && ts[t].params == [name]
    requires Binding(b, ts[t], 0, g, Strip(Lower(question))) == Some(v)
    ensures MatchSpec(b, search, ts, question) == Ok(Some(head + v + tail))
  {
    FirstMatchIsHit(search, ts, Strip(Lower(question)), t, p, g);
    BindOne(b, ts[t], g, Strip(Lower(question)));
    FormatOneSlot(head, name, tail, v);
  }

  /** The `avg_vital_sign` shape with its `field` parameter bound to v. */
  lemma FieldSlotsFilled(b: Binder, search: Search, ts: seq<Template>, question: string, t: nat, p: nat, g: seq<string>,
                         a: string, m: string, z: string, v: string)
    requires FirstMatchIs(search, ts, Strip(Lower(question)), t, p, g)
    requires ts[t].sql == [Text(a), Slot("field"), Text(m), Slot("field"), Text(z)] && ts[t].params == ["field"]
    requires Binding(b, ts[t], 0, g, Strip(Lower(question))) == Some(v)
    ensures MatchSpec(b, search, ts, question) == Ok(Some(a + v + m + v + z))
  {
    FirstMatchIsHit(search, ts, Strip(Lower(question)), t, p, g);
    BindOne(b, ts[t], g, Strip(Lower(question)));
    FormatTwoSlots(a, m, z, v);
  }

  /** For `visits_count_days` and `inactive_patients` the captured digits
      replace `{days}` (under either binder). */
  lemma DaysSubstituted(b: Binder, search: Search, ts: seq<Template>, question: string, t: nat, p: nat, g: seq<string>)
    requires |ts| > t
    requires (t == 0 && ts[t] == VisitsCountTemplate) || (t == 6 && ts[t] == InactivePatientsTemplate)
    requires FirstMatchIs(search, ts, Strip(Lower(question)), t, p, g) && |g| >= 1
    ensures MatchSpec(b, search, ts, question) == Ok(Some(ts[t].sql[0].s + g[0] + ts[t].sql[2].s))
  {
    var tm := ts[t];
    assert tm.sql == [Text(tm.sql[0].s), Slot("days"), Text(tm.sql[2].s)] && tm.params == ["days"];
    assert Binding(b, tm, 0, g, Strip(Lower(question))) == Some(g[0]);
    OneSlotFilled(b, search, ts, question, t, p, g, tm.sql[0].s, "days", tm.sql[2].s, g[0]);
  }

  /** As written: when the matching `avg_vital_sign` pattern captures no
      group, nothing is bound and the SQL comes back with `{field}` still in
      it. Both of its patterns group only with `(?:...)`, so this is every
      question it answers, e.g. "What's the average heart rate across all
      visits?". */
  lemma FieldLeftUnreplaced(search: Search, ts: seq<Template>, question: string, p: nat)
    requires |ts| > AvgVitalIndex && ts[AvgVitalIndex] == AvgVitalTemplate
    requires FirstMatchIs(search, ts, Strip(Lower(question)), AvgVitalIndex, p, [])
    ensures MatchSpec(AsWritten, search, ts, question) == Ok(Some(Render(AvgVitalSql)))
    ensures Contains(Render(AvgVitalSql), "{field}")
  {
    var text := Strip(Lower(question));
    FirstMatchIsHit(search, ts, text, AvgVitalIndex, p, []);
    UncapturedLeftAsStored(ts[AvgVitalIndex], text);
    AvgVitalShowsField();
  }

  /** As written, a one-parameter template whose pattern captured nothing
      is returned exactly as stored. */
  lemma UncapturedLeftAsStored(tm: Template, text: string)
    requires |tm.params| == 1
    ensures Fill(AsWritten, tm, Bind(AsWritten, tm, |tm.params|, [], text)) == Ok(Render(tm.sql))
  {
    BindOne(AsWritten, tm, [], text);
  }

  /** The stored `avg_vital_sign` SQL shows its `{field}` placeholder. */
  lemma AvgVitalShowsField()
    ensures Contains(Render(AvgVitalSql), "{field}")
  {
    RenderShowsSlot(AvgVitalSql, "field");
    assert "{" + "field" + "}" == "{field}";
  }

  /** As written, a `field` parameter that does bind takes the mapped name
      of the first mapping key in the question, else the captured text. */
  lemma FieldFromMappingWhenCaptured(search: Search, ts: seq<Template>, question: string, p: nat, g: seq<string>)
    requires |ts| > AvgVitalIndex && ts[AvgVitalIndex] == AvgVitalTemplate
    requires FirstMatchIs(search, ts, Strip(Lower(question)), AvgVitalIndex, p, g) && |g| >= 1
    ensures var v := match MappedField(FieldMapping, Strip(Lower(question))) case Some(m) => m case None => g[0];
      MatchSpec(AsWritten, search, ts, question) ==
        Ok(Some(AvgVitalSql[0].s + v + AvgVitalSql[2].s + v + AvgVitalSql[4].s))
  {
    var v := match MappedField(FieldMapping, Strip(Lower(question))) case Some(m) => m case None => g[0];
    AvgVitalBinding(AsWritten, ts[AvgVitalIndex], g, Strip(Lower(question)));
    FieldSlotsFilled(AsWritten, search, ts, question, AvgVitalIndex, p, g, AvgVitalSql[0].s, AvgVitalSql[2].s, AvgVitalSql[4].s, v);
  }

  /** How the `avg_vital_sign` template's one parameter is bound. */
  lemma AvgVitalBinding(b: Binder, tm: Template, g: seq<string>, text: string)
    requires tm == AvgVitalTemplate
    ensures tm.sql == [Text(AvgVitalSql[0].s), Slot("field"), Text(AvgVitalSql[2].s), Slot("field"), Text(AvgVitalSql[4].s)]
    ensures tm.params == ["field"]
    ensures Binding(b, tm, 0, g, text) ==
      match b
      case AsWritten =>
        if |g| == 0 then None
        else Some(match MappedField(FieldMapping, text) case Some(m) => m case None => g[0])
      case Corrected =>
        if MappedField(FieldMapping, text).Some? then MappedField(FieldMapping, text)
        else if |g| == 0 then None else Some(g[0])
  {
    assert tm.params[0] == "field" && tm.fieldMapping == Some(FieldMapping);
  }

  /** Corrected: whenever a mapping key occurs in the question, both
      `{field}` placeholders are replaced by its mapped name, whether or not
      the pattern captured anything. */
  lemma FieldAlwaysReplaced(search: Search, ts: seq<Template>, question: string, p: nat, g: seq<string>, v: string)
    requires |ts| > AvgVitalIndex && ts[AvgVitalIndex] == AvgVitalTemplate
    requires FirstMatchIs(search, ts, Strip(Lower(question)), AvgVitalIndex, p, g)
    requires MappedField(FieldMapping, Strip(Lower(question))) == Some(v)
    ensures MatchSpec(Corrected, search, ts, question) ==
      Ok(Some(AvgVitalSql[0].s + v + AvgVitalSql[2].s + v + AvgVitalSql[4].s))
  {
    AvgVitalBinding(Corrected, ts[AvgVitalIndex], g, Strip(Lower(question)));
    FieldSlotsFilled(Corrected, search, ts, question, AvgVitalIndex, p, g, AvgVitalSql[0].s, AvgVitalSql[2].s, AvgVitalSql[4].s, v);
  }

  /** Corrected, a question mentioning "heart rate" asks for `heart_rate`
      in both places: `AVG(JSON_EXTRACT(vital_signs, '$.heart_rate')) as
      avg_heart_rate`. */
  lemma HeartRateQuestion(search: Search, ts: seq<Template>, question: string, p: nat, g: seq<string>)
    requires |ts| > AvgVitalIndex && ts[AvgVitalIndex] == AvgVitalTemplate
    requires FirstMatchIs(search, ts, Strip(Lower(question)), AvgVitalIndex, p, g)
    requires Contains(Strip(Lower(question)), "heart rate")
    ensures MatchSpec(Corrected, search, ts, question) ==
      Ok(Some(AvgVitalSql[0].s + "heart_rate" + AvgVitalSql[2].s + "heart_rate" + AvgVitalSql[4].s))
  {
    HeartRateMapped(Strip(Lower(question)));
    FieldAlwaysReplaced(search, ts, question, p, g, "heart_rate");
  }

  lemma HeartRateMapped(text: string)
    requires Contains(text, "heart rate")
    ensures MappedField(FieldMapping, text) == Some("heart_rate")
  {
    assert FieldMapping[0] == ("heart rate", "heart_rate");
  }

  /** The table holds 23 patterns. */
  lemma PatternCount(ts: seq<Template>)
    requires ts == Templates
    ensures |AllPatterns(ts)| == 23
  {
    PatternsOfEight(ts);
  }

  /** An eight-template table has the patterns of its eight entries. */
  lemma PatternsOfEight(ts: seq<Template>)
    requires |ts| == 8
    ensures |AllPatterns(ts)| == |ts[0].patterns| + |ts[1].patterns| + |ts[2].patterns| + |ts[3].patterns| +
      |ts[4].patterns| + |ts[5].patterns| + |ts[6].patterns| + |ts[7].patterns|
  {
    assert ts[0..] == ts && ts[8..] == [];
    AllPatternsStep(ts, 0);
    AllPatternsStep(ts, 1);
    AllPatternsStep(ts, 2);
    AllPatternsStep(ts, 3);
    AllPatternsStep(ts, 4);
    AllPatternsStep(ts, 5);
    AllPatternsStep(ts, 6);
    AllPatternsStep(ts, 7);
  }

  lemma AllPatternsStep(ts: seq<Template>, k: nat)
    requires k < |ts|
    ensures |AllPatterns(ts[k..])| == |ts[k].patterns| + |AllPatterns(ts[k + 1..])|
  {
    assert ts[k..][1..] == ts[k + 1..];
  }

  // ---------------------------------------------------------------------
  // The matcher object

  class QueryTemplates {
    const templates: seq<Template>

    constructor ()
      ensures templates == Templates
    {
      templates := Templates;
    }

    /** The mapped field name: the value of the first mapping key that
        occurs in the text. */
    static method FindMappedField(mapping: seq<(string, string)>, text: string) returns (r: Option<string>)
      ensures r == MappedField(mapping, text)
    {
      var j := 0;
      while j < |mapping|
        invariant 0 <= j <= |mapping|
        invariant MappedField(mapping, text) == MappedField(mapping[j..], text)
      {
        var (key, value) := mapping[j];
        if Contains(text, key) {
          return Some(value);
        }
        assert mapping[j..][1..] == mapping[j + 1..];
        j := j + 1;
      }
      return None;
    }

    /** Builds the `params` dict for a match of template t. */
    static method BindParams(b: Binder, t: Template, groups: seq<string>, text: string) returns (params: seq<(string, string)>)
      ensures params == Bind(b, t, |t.params|, groups, text)
    {
      params := [];
      var i := 0;
      while i < |t.params|
        invariant 0 <= i <= |t.params|
        invariant params == Bind(b, t, i, groups, text)
      {
        var mapped := None;
        if t.params[i] == "field" && t.fieldMapping.Some? {
          mapped := FindMappedField(t.fieldMapping.value, text);
        }
        var value := None;
        match b {
          case AsWritten =>
            if i < |groups| {
              value := if mapped.Some? then mapped else Some(groups[i]);
            }
          case Corrected =>
            if mapped.Some? {
              value := mapped;
            } else if i < |groups| {
              value := Some(groups[i]);
            }
        }
        if value.Some? {
          params := params + [(t.params[i], value.value)];
        }
        i := i + 1;
      }
    }

    /** `match(question)`: templates in order, patterns in order, the first
        match wins. */
    method Match(b: Binder, search: Search, question: string) returns (r: Result<Option<string>>)
      ensures r == MatchSpec(b, search, templates, question)
    {
      var text := Strip(Lower(question));
      var i := 0;
      while i < |templates|
        invariant 0 <= i <= |templates|
        invariant FirstHitFrom(search, templates, 0, text) == FirstHitFrom(search, templates, i, text)
      {
        var t := templates[i];
        var j := 0;
        while j < |t.patterns|
          invariant 0 <= j <= |t.patterns|
          invariant PatternHitFrom(search, t.patterns, 0, text) == PatternHitFrom(search, t.patterns, j, text)
        {
          var m := search(t.patterns[j], text);
          if m.Some? {
            var params := BindParams(b, t, m.value, text);
            var sql := Fill(b, t, params);
            r := match sql case Ok(s) => Ok(Some(s)) case Err(e) => Err(e);
            return;
          }
          j := j + 1;
        }
        i := i + 1;
      }
      r := Ok(None);
    }

    /** `get_supported_patterns`: every pattern, template by template. */
    method GetSupportedPatterns() returns (patterns: seq<string>)
      ensures patterns == AllPatterns(templates)
    {
      patterns := [];
      var i := 0;
      while i < |templates|
        invariant 0 <= i <= |templates|
        invariant patterns + AllPatterns(templates[i..]) == AllPatterns(templates)
      {
        assert templates[i..][1..] == templates[i + 1..];
        patterns := patterns + templates[i].patterns;
        i := i + 1;
      }
    }
  }
}

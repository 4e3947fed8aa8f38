/** The four pipeline nodes. Each takes the conversation state and returns
    a partial update, without changing the state itself. The classifier
    and narrator models, JSON parsing, the analytics agent, the tables the
    nodes read and `str`/`repr` of Python values are all parameters
    (`Services`). */
module GraphNodes {
  import opened Common
  import opened GraphState
  import AnalyticsAgent

  /** A patient as entity resolution sees it. */
  datatype Patient = Patient(id: int, firstName: string, lastName: string)

  /** A visit as the direct query sees it: `visitDate` orders visits in
      time, `dateText` is `str(visit_date)`. */
  datatype Visit = Visit(
    id: int, patientId: int, visitDate: int, dateText: string,
    chiefComplaint: Option<string>, diagnosis: Option<string>, visitType: string)

  /** Everything outside the nodes' own logic. */
  datatype Services = Services(
    classify: string -> Result<string>,          // intent_agent.run_async
    parse: string -> Option<Json>,               // json.loads; None when it raises JSONDecodeError
    showMessages: seq<Message> -> string,        // f"{recent_messages}"
    display: Json -> string,                     // f"{entity}" for a non-string entity
    patients: Result<seq<Patient>>,              // the patients table in scan order, or the error `db.execute` raises
    ask: string -> AnalyticsAgent.Answer,        // analytics_agent.answer_analytics_question(q, db, explain=False)
    visits: Result<seq<Visit>>,                  // the visits table in scan order, or the error `db.execute` raises
    toDate: Json -> Result<int>,                 // the driver's conversion of a date filter, or its error
    narrate: string -> Result<string>,           // narrator_agent.run_async
    showRows: seq<Row> -> string)                // f"{results[:10]}"

  /** An update that sets only the error key. */
  function ErrorUpdate(e: string): Update {
    NoUpdate.(error := Some(e))
  }

  // ---------------------------------------------------------------------
  // Step A: `extract_intent`

  /** `messages[-5:]` */
  function LastFive(messages: seq<Message>): (r: seq<Message>)
    ensures |r| == Min(5, |messages|)
    ensures r == messages[|messages| - |r|..]
  {
    messages[|messages| - Min(5, |messages|)..]
  }

  /** The classifier's input. */
  function IntentContext(s: ConversationState, show: seq<Message> -> string): string {
    "Query: " + s.query + "\nRecent conversation: " + show(LastFive(s.messages))
  }

  /** `{"intent": chitchat, "filters": {}, "entity_to_resolve": None}` */
  const ChitchatUpdate: Update := NoUpdate.(intent := Some(Some(IntentChitchat)), filters := Some(JObj([])), entityToResolve := Some(JNull))

  /** `extract_intent(state)`: the classifier's JSON reply, with a missing or
      unknown intent coerced to chitchat. A reply that is not JSON counts
      as chitchat; a classifier failure, a reply that is not an object, and
      an intent that is a list or object (not hashable, so the membership
      test raises) become an error. */
  function ExtractIntent(s: ConversationState, env: Services): (u: Update)
    ensures u.error.None? ==> u.intent.Some? && u.intent.value.Some? && u.intent.value.value in ValidIntents
    ensures u.error.Some? ==> u == ErrorUpdate(u.error.value) && StartsWith(u.error.value, "Intent extraction failed: ")
    ensures u.messages == [] && u.resolvedIds.None? && u.results.None? && u.response.None?
  {
    IntentFromReply(env.classify(IntentContext(s, env.showMessages)), env.parse)
  }

  /** The update for the classifier's outcome. */
  function IntentFromReply(reply: Result<string>, parse: string -> Option<Json>): (u: Update)
    ensures u.error.None? ==> u.intent.Some? && u.intent.value.Some? && u.intent.value.value in ValidIntents
    ensures u.error.Some? ==> u == ErrorUpdate(u.error.value) && StartsWith(u.error.value, "Intent extraction failed: ")
    ensures u.messages == [] && u.resolvedIds.None? && u.results.None? && u.response.None?
  {
    match reply
    case Err(e) => ErrorUpdate("Intent extraction failed: " + e)
    case Ok(text) =>
      match parse(text)
      case None => ChitchatUpdate
      case Some(parsed) =>
        if !parsed.JObj? then
          ErrorUpdate("Intent extraction failed: '" + TypeName(parsed) + "' object has no attribute 'get'")
        else
          var raw := GetOr(parsed.fields, "intent", JStr(IntentChitchat));
          if raw.JArr? || raw.JObj? then
            ErrorUpdate("Intent extraction failed: unhashable type: '" + TypeName(raw) + "'")
          else
            var intent := if raw.JStr? && raw.s in ValidIntents then raw.s else IntentChitchat;
            NoUpdate.(intent := Some(Some(intent)),
                      filters := Some(GetOr(parsed.fields, "filters", JObj([]))),
                      entityToResolve := Some(GetOr(parsed.fields, "entity_to_resolve", JNull)))
  }

  /** The classifier sees the question and at most the five latest
      messages: two states that agree on those get the same update. */
  lemma ExtractIntentSeesLastFive(s1: ConversationState, s2: ConversationState, env: Services)
    requires s1.query == s2.query && LastFive(s1.messages) == LastFive(s2.messages)
    ensures ExtractIntent(s1, env) == ExtractIntent(s2, env)
    ensures |LastFive(s1.messages)| <= 5
  {
    assert IntentContext(s1, env.showMessages) == IntentContext(s2, env.showMessages);
  }

  /** A valid intent is kept; a reply that is not JSON, or names no intent or
      an unknown one, gives chitchat. */
  lemma IntentCoercion(s: ConversationState, env: Services, reply: string)
    requires env.classify(IntentContext(s, env.showMessages)) == Ok(reply)
    ensures env.parse(reply).None? ==> ExtractIntent(s, env) == ChitchatUpdate
    ensures env.parse(reply).Some? && env.parse(reply).value.JObj? ==>
      var raw := Lookup(env.parse(reply).value.fields, "intent");
      (raw.None? ==> ExtractIntent(s, env).intent == Some(Some(IntentChitchat))) &&
      (raw.Some? && raw.value.JStr? ==>
         ExtractIntent(s, env).intent == Some(Some(if raw.value.s in ValidIntents then raw.value.s else IntentChitchat)))
  {
  }

  // ---------------------------------------------------------------------
  // Step B: `resolve_entities`

  /** `f"{entity}"` */
  function EntityText(entity: Json, display: Json -> string): string {
    if entity.JStr? then entity.s else display(entity)
  }

  /** `first_name ILIKE '%e%' OR last_name ILIKE '%e%'`, with the entity's
      characters taken literally. */
  predicate NameMatches(p: Patient, e: string) {
    Contains(Lower(p.firstName), Lower(e)) || Contains(Lower(p.lastName), Lower(e))
  }

  /** The first patient, in scan order, whose name matches. */
  function FirstMatching(ps: seq<Patient>, e: string): (r: Option<nat>)
    ensures r.Some? ==> r.value < |ps| && NameMatches(ps[r.value], e) &&
                        forall k :: 0 <= k < r.value ==> !NameMatches(ps[k], e)
    ensures r.None? ==> forall k :: 0 <= k < |ps| ==> !NameMatches(ps[k], e)
  {
    if ps == [] then None
    else if NameMatches(ps[0], e) then Some(0)
    else match FirstMatching(ps[1..], e)
      case None => None
      case Some(k) => Some(k + 1)
  }

  /** `resolve_entities(state)`: a failing patients query becomes the
      "Entity resolution failed: " error. */
  function ResolveEntities(s: ConversationState, env: Services): (u: Update)
    ensures HasError(s) ==> u == NoUpdate
    ensures !HasError(s) ==>
      u == NoUpdate.(resolvedIds := u.resolvedIds, error := u.error) && u.resolvedIds.Some? != u.error.Some?
    ensures !HasError(s) ==>
      (u.error.Some? <==> Truthy(s.entityToResolve) && env.patients.Err?) &&
      (u.error.Some? ==> u.error.value == "Entity resolution failed: " + env.patients.error)
  {
    if HasError(s) then NoUpdate
    else if !Truthy(s.entityToResolve) then NoUpdate.(resolvedIds := Some([]))
    else match env.patients
      case Err(e) => ErrorUpdate("Entity resolution failed: " + e)
      case Ok(ps) =>
        match FirstMatching(ps, EntityText(s.entityToResolve, env.display))
        case Some(k) => NoUpdate.(resolvedIds := Some([("patient_id", ps[k].id)]))
        case None => NoUpdate.(resolvedIds := Some([]))
  }

  /** With no entity the ids are empty and the table is not read. When the
      table can be read, a resolved id belongs to the first patient whose
      first or last name contains the entity, ignoring case, and when no
      name matches the ids are empty; no error is raised either way. */
  lemma ResolvesFirstMatch(s: ConversationState, env: Services)
    requires !HasError(s)
    ensures !Truthy(s.entityToResolve) ==> ResolveEntities(s, env) == NoUpdate.(resolvedIds := Some([]))
    ensures env.patients.Ok? ==>
      var u := ResolveEntities(s, env);
      var e := EntityText(s.entityToResolve, env.display);
      var ps := env.patients.value;
      u.error.None? &&
      (u.resolvedIds == Some([]) <==>
         !Truthy(s.entityToResolve) || forall k :: 0 <= k < |ps| ==> !NameMatches(ps[k], e)) &&
      (forall id :: u.resolvedIds == Some([("patient_id", id)]) ==>
         exists k :: 0 <= k < |ps| && ps[k].id == id && NameMatches(ps[k], e) &&
                     forall j :: 0 <= j < k ==> !NameMatches(ps[j], e))
  {
    var e := EntityText(s.entityToResolve, env.display);
    if Truthy(s.entityToResolve) && env.patients.Ok? {
      match FirstMatching(env.patients.value, e)
      case Some(k) =>
        assert NameMatches(env.patients.value[k], e);
      case None =>
    }
  }

  // ---------------------------------------------------------------------
  // Step C: `query_database`

  const MaxVisitRows: nat := 20

  /** Newest first: visit dates never increase along the sequence. */
  predicate NewestFirstOrder(vs: seq<Visit>) {
    forall i, j :: 0 <= i < j < |vs| ==> vs[i].visitDate >= vs[j].visitDate
  }

  /** Inserts v before the first visit that is not newer than it. */
  function InsertByDate(v: Visit, vs: seq<Visit>): seq<Visit> {
    if vs == [] || vs[0].visitDate <= v.visitDate then [v] + vs
    else [vs[0]] + InsertByDate(v, vs[1..])
  }

  /** `ORDER BY visit_date DESC`, ties in scan order. */
  function SortNewestFirst(vs: seq<Visit>): seq<Visit> {
    if vs == [] then [] else InsertByDate(vs[0], SortNewestFirst(vs[1..]))
  }

  lemma {:induction false} InsertByDateMultiset(v: Visit, vs: seq<Visit>)
    ensures multiset(InsertByDate(v, vs)) == multiset(vs) + multiset{v}
  {
    if vs != [] && vs[0].visitDate > v.visitDate {
      InsertByDateMultiset(v, vs[1..]);
      assert vs == [vs[0]] + vs[1..];
    }
  }

  lemma {:induction false} InsertByDateSorted(v: Visit, vs: seq<Visit>)
    requires NewestFirstOrder(vs)
    ensures NewestFirstOrder(InsertByDate(v, vs))
  {
    if vs == [] || vs[0].visitDate <= v.visitDate {
      NewestFirstCons(v, vs);
    } else {
      var t := InsertByDate(v, vs[1..]);
      InsertByDateSorted(v, vs[1..]);
      assert t[0] == v || t[0] == vs[1];
      NewestFirstCons(vs[0], t);
    }
  }

  /** A visit not older than the first of a newest-first list can go in
      front of it. */
  lemma NewestFirstCons(v: Visit, vs: seq<Visit>)
    requires NewestFirstOrder(vs) && (vs != [] ==> vs[0].visitDate <= v.visitDate)
    ensures NewestFirstOrder([v] + vs)
  {
    var r := [v] + vs;
    forall i, j | 0 <= i < j < |r| ensures r[i].visitDate >= r[j].visitDate {
      assert r[j] == vs[j - 1];
      if i > 0 {
        assert r[i] == vs[i - 1];
      } else if j > 1 {
        assert vs[0].visitDate >= vs[j - 1].visitDate;
      }
    }
  }

  /** The sort yields newest-first order and a permutation of its input. */
  lemma {:induction false} SortNewestFirstCorrect(vs: seq<Visit>)
    ensures NewestFirstOrder(SortNewestFirst(vs))
    ensures multiset(SortNewestFirst(vs)) == multiset(vs)
  {
    if vs != [] {
      SortNewestFirstCorrect(vs[1..]);
      InsertByDateSorted(vs[0], SortNewestFirst(vs[1..]));
      InsertByDateMultiset(vs[0], SortNewestFirst(vs[1..]));
      assert vs == [vs[0]] + vs[1..];
    }
  }

  /** The filter values the direct query applies. */
  datatype VisitFilter = VisitFilter(patientId: Option<int>, dateStart: Option<int>, dateEnd: Option<int>)

  predicate Passes(v: Visit, f: VisitFilter) {
    (f.patientId.Some? ==> v.patientId == f.patientId.value) &&
    (f.dateStart.Some? ==> f.dateStart.value <= v.visitDate) &&
    (f.dateEnd.Some? ==> v.visitDate <= f.dateEnd.value)
  }

  function Select(vs: seq<Visit>, f: VisitFilter): (r: seq<Visit>)
    ensures forall i :: 0 <= i < |r| ==> Passes(r[i], f)
    ensures forall v :: v in vs && Passes(v, f) ==> v in r
    ensures forall v :: v in r ==> v in vs
  {
    if vs == [] then []
    else (if Passes(vs[0], f) then [vs[0]] else []) + Select(vs[1..], f)
  }

  /** The row for one visit. */
  function VisitRow(v: Visit): (r: Row)
    ensures Keys(r) == ["id", "date", "chief_complaint", "diagnosis", "visit_type"]
  {
    var text := (o: Option<string>) => if o.Some? then VText(o.value) else VNull;
    [("id", VInt(v.id)), ("date", VText(v.dateText)), ("chief_complaint", text(v.chiefComplaint)),
     ("diagnosis", text(v.diagnosis)), ("visit_type", VText(v.visitType))]
  }

  /** A date filter from `filters.get(name)`: absent or falsy means none;
      otherwise the driver's conversion, which may fail. */
  function DateFilter(fields: seq<(string, Json)>, name: string, toDate: Json -> Result<int>): Result<Option<int>> {
    match Lookup(fields, name)
    case None => Ok(None)
    case Some(v) =>
      if !Truthy(v) then Ok(None)
      else match toDate(v)
        case Ok(d) => Ok(Some(d))
        case Err(e) => Err(e)
  }

  /** The filter the direct query builds, or the error that ends it. */
  function BuildFilter(s: ConversationState, env: Services): Result<VisitFilter> {
    var pid := Lookup(s.resolvedIds, "patient_id");
    var patient := if pid.Some? && pid.value != 0 then pid else None;
    if !s.filters.JObj? then Err("'" + TypeName(s.filters) + "' object has no attribute 'get'")
    else match DateFilter(s.filters.fields, "date_start", env.toDate)
      case Err(e) => Err(e)
      case Ok(start) =>
        match DateFilter(s.filters.fields, "date_end", env.toDate)
        case Err(e) => Err(e)
        case Ok(end) => Ok(VisitFilter(patient, start, end))
  }

  /** The visits the direct query returns: the 20 newest passing the
      filter. */
  function TopVisits(vs: seq<Visit>, f: VisitFilter): seq<Visit> {
    var sorted := SortNewestFirst(Select(vs, f));
    sorted[..Min(MaxVisitRows, |sorted|)]
  }

  /** One row per returned visit. */
  function VisitRows(vs: seq<Visit>, f: VisitFilter): (rows: seq<Row>)
    ensures |rows| == |TopVisits(vs, f)|
    ensures forall i :: 0 <= i < |rows| ==> Keys(rows[i]) == ["id", "date", "chief_complaint", "diagnosis", "visit_type"]
  {
    var top := TopVisits(vs, f);
    seq(|top|, i requires 0 <= i < |top| => VisitRow(top[i]))
  }

  /** `query_database(state)`: the analytics agent for analytics questions
      (whose error answers become an empty result list), the visits table
      otherwise. */
  function QueryDatabase(s: ConversationState, env: Services): (u: Update)
    ensures HasError(s) ==> u == NoUpdate
    ensures !HasError(s) ==> u.results.Some? != u.error.Some?
    ensures u.intent.None? && u.messages == [] && u.response.None? && u.resolvedIds.None?
  {
    if HasError(s) then NoUpdate
    else if s.intent == Some(IntentAnalytics) then
      var answer := env.ask(s.query);
      NoUpdate.(results := Some(if answer.Answered? then answer.results else []))
    else match BuildFilter(s, env)
      case Err(e) => ErrorUpdate("Database query failed: " + e)
      case Ok(f) =>
        match env.visits
        case Err(e) => ErrorUpdate("Database query failed: " + e)
        case Ok(vs) => NoUpdate.(results := Some(VisitRows(vs, f)))
  }

  /** An analytics failure is not a pipeline error: an unsafe or failed
      answer yields no rows and no error. */
  lemma AnalyticsFailureIsEmpty(s: ConversationState, env: Services)
    requires !HasError(s) && s.intent == Some(IntentAnalytics) && !env.ask(s.query).Answered?
    ensures QueryDatabase(s, env) == NoUpdate.(results := Some([]))
  {
  }

  /** What the query node stores: an answered analytics question stores the
      agent's rows; a direct query whose filter cannot be built, or whose
      visits query fails, stores only the prefixed error; otherwise one row
      per returned visit, in the same order, each visit from the table and
      passing the filter, at most 20. */
  lemma QueryDatabaseResults(s: ConversationState, env: Services)
    ensures !HasError(s) && s.intent == Some(IntentAnalytics) && env.ask(s.query).Answered? ==>
      QueryDatabase(s, env) == NoUpdate.(results := Some(env.ask(s.query).results))
    ensures !HasError(s) && s.intent != Some(IntentAnalytics) && BuildFilter(s, env).Err? ==>
      QueryDatabase(s, env) == ErrorUpdate("Database query failed: " + BuildFilter(s, env).error)
    ensures !HasError(s) && s.intent != Some(IntentAnalytics) && BuildFilter(s, env).Ok? && env.visits.Err? ==>
      QueryDatabase(s, env) == ErrorUpdate("Database query failed: " + env.visits.error)
    ensures !HasError(s) && s.intent != Some(IntentAnalytics) && BuildFilter(s, env).Ok? && env.visits.Ok? ==>
      var f := BuildFilter(s, env).value;
      var top := TopVisits(env.visits.value, f);
      var u := QueryDatabase(s, env);
      u.error.None? && u.results.Some? && |u.results.value| == |top| <= MaxVisitRows &&
      forall i :: 0 <= i < |top| ==>
        u.results.value[i] == VisitRow(top[i]) && top[i] in env.visits.value && Passes(top[i], f)
  {
    if !HasError(s) && s.intent != Some(IntentAnalytics) && BuildFilter(s, env).Ok? && env.visits.Ok? {
      TopVisitsCorrect(env.visits.value, BuildFilter(s, env).value);
    }
  }

  /** The direct query returns at most 20 visits, newest first, each from
      the table and passing the filter; fewer than 20 means every passing
      visit was returned. */
  lemma TopVisitsCorrect(vs: seq<Visit>, f: VisitFilter)
    ensures var top := TopVisits(vs, f);
      |top| <= MaxVisitRows && NewestFirstOrder(top) &&
      (forall i :: 0 <= i < |top| ==> top[i] in vs && Passes(top[i], f)) &&
      (|top| < MaxVisitRows ==> multiset(top) == multiset(Select(vs, f)))
  {
    var sorted := SortNewestFirst(Select(vs, f));
    SortNewestFirstCorrect(Select(vs, f));
    var top := TopVisits(vs, f);
    assert top == sorted[..|top|];
    forall i | 0 <= i < |top| ensures top[i] in vs && Passes(top[i], f) {
      assert top[i] == sorted[i];
      assert sorted[i] in multiset(Select(vs, f));
    }
    if |top| < MaxVisitRows {
      assert top == sorted;
    }
  }

  // ---------------------------------------------------------------------
  // Step D: `generate_response`

  const FallbackResponse: string := "I apologize, but I couldn't generate a response. Please try again."

  /** The apology for an error carried in the state. */
  function ErrorResponse(error: string): string {
    ErrorOpening + error + ErrorClosing
  }

  const ErrorOpening: string := "I encountered an issue: "
  const ErrorClosing: string := ". Please try rephrasing your question."

  /** The narrator's prompt: the question, the intent, the first ten rows
      and a one-line summary of the row count. */
  function NarratorPrompt(s: ConversationState, showRows: seq<Row> -> string): string {
    var summary := if s.results != [] then NatToString(|s.results|) + " results found" else "No results found";
    var intent := if s.intent.Some? then s.intent.value else "None";
    "\nUser Query: " + s.query + "\nIntent: " + intent + "\nResults: " + showRows(s.results[..Min(10, |s.results|)]) +
    "\nSummary: " + summary + NarratorInstructions
  }

  const NarratorInstructions: string :=
    "\n\nGenerate a helpful, professional response for a medical professional.\n" +
    "If there are results, summarize them clearly. If no results, suggest alternatives.\n"

  /** The user's question and the reply, as two history messages. */
  function Exchange(query: string, reply: string): seq<Message> {
    [Message("user", query), Message("assistant", reply)]
  }

  /** The update `generate_response` returns: the reply, the exchange for
      the history, and possibly an error. */
  function Replied(query: string, reply: string, error: Option<string>): (u: Update)
    ensures u.response == Some(reply) && u.messages == Exchange(query, reply) && u.error == error
    ensures u.intent.None? && u.results.None? && u.resolvedIds.None?
  {
    NoUpdate.(response := Some(reply), messages := Exchange(query, reply), error := error)
  }

  /** `generate_response(state)` */
  function GenerateResponse(s: ConversationState, env: Services): (u: Update)
    ensures u.response.Some? && u.messages == Exchange(s.query, u.response.value)
    ensures HasError(s) ==> u.response == Some(ErrorResponse(s.error.value)) && u.error.None?
    ensures u.intent.None? && u.results.None? && u.resolvedIds.None?
  {
    if HasError(s) then Replied(s.query, ErrorResponse(s.error.value), None)
    else Narrated(s.query, env.narrate(NarratorPrompt(s, env.showRows)))
  }

  /** The narrator's reply, or the fixed apology with the error recorded. */
  function Narrated(query: string, outcome: Result<string>): (u: Update)
    ensures u.response == Some(if outcome.Ok? then outcome.value else FallbackResponse)
    ensures u.messages == Exchange(query, u.response.value)
    ensures u.error == (if outcome.Ok? then None else Some(outcome.error))
    ensures u.intent.None? && u.results.None? && u.resolvedIds.None?
  {
    match outcome
    case Ok(reply) => Replied(query, reply, None)
    case Err(e) => Replied(query, FallbackResponse, Some(e))
  }

  /** With an error set, the narrator is never consulted: the reply is the
      same whatever it would have said. */
  lemma ErrorSkipsNarrator(s: ConversationState, env: Services, narrate: string -> Result<string>)
    requires HasError(s)
    ensures GenerateResponse(s, env) == GenerateResponse(s, env.(narrate := narrate))
  {
  }

  /** A narrator failure gives the fixed apology and records the error. */
  lemma NarratorFailure(s: ConversationState, env: Services, e: string)
    requires !HasError(s) && env.narrate(NarratorPrompt(s, env.showRows)) == Err(e)
    ensures GenerateResponse(s, env).response == Some(FallbackResponse)
    ensures GenerateResponse(s, env).error == Some(e)
  {
  }
}

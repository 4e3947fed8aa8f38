/** The analytics agent: answers a question about the records by resolving
    it to SQL in cost order (the query cache, then the template matcher,
    then the language model), writing template and model SQL to the cache,
    checking that the SQL is read-only, executing it and normalizing the
    rows. It keeps running counters of how questions were resolved.

    The database is an oracle from SQL text to rows or an error; the
    language model is the fallback agent's providers; `json.dumps` is a
    parameter; the clock is the `now` parameter. */
module AnalyticsAgent {
  import opened Common
  import QueryCache
  import QueryTemplates
  import BaseAgent

  /** `await db.execute(text(sql))` followed by the row-to-dict conversion:
      the rows, or the text of the exception it raised. */
  type Executor = string -> Result<seq<Row>>

  datatype Source = Cache | Template | Ai

  /** The `source` field: "cache", "template" or "ai". */
  function SourceName(s: Source): string {
    match s
    case Cache => "cache"
    case Template => "template"
    case Ai => "ai"
  }

  /** The three shapes of `answer_analytics_question`'s result dict. */
  datatype Answer =
    | Answered(question: string, sqlQuery: string, results: seq<Row>, rowCount: nat,
               explanation: Option<string>, source: Source, costEstimate: string)
    | Unsafe(error: string, query: string, source: Source)
    | Failed(error: string, question: string)

  const UnsafeMessage: string := "Generated query is not safe (contains write operations)"

  // ---------------------------------------------------------------------
  // `_extract_sql`

  /** `re.sub(tag + r'\n?', '', s)`: every occurrence of tag, scanning left
      to right, is removed together with one newline right after it. */
  function RemoveFence(s: string, tag: string): (r: string)
    requires tag != []
    ensures |r| <= |s|
    decreases |s|
  {
    if StartsWith(s, tag) then
      var rest := s[|tag|..];
      if rest != [] && rest[0] == '\n' then RemoveFence(rest[1..], tag) else RemoveFence(rest, tag)
    else if s == [] then []
    else [s[0]] + RemoveFence(s[1..], tag)
  }

  lemma {:induction false} RemoveFenceAbsent(s: string, tag: string)
    requires tag != [] && !Contains(s, tag)
    ensures RemoveFence(s, tag) == s
    decreases |s|
  {
    if s != [] {
      RemoveFenceAbsent(s[1..], tag);
    }
  }

  /** A leading tag is removed together with one newline right after it. */
  lemma LeadingFenceRemoved(tag: string, s: string)
    requires tag != []
    ensures RemoveFence(tag + "\n" + s, tag) == RemoveFence(s, tag)
    ensures (s == [] || s[0] != '\n') ==> RemoveFence(tag + s, tag) == RemoveFence(s, tag)
  {
    assert (tag + "\n" + s)[..|tag|] == tag && (tag + "\n" + s)[|tag|..] == "\n" + s;
    assert ("\n" + s)[1..] == s;
    assert (tag + s)[..|tag|] == tag && (tag + s)[|tag|..] == s;
  }

  /** After the plain fence is removed no "```" is left: a backtick kept
      in front of a removed fence would have started that fence itself. */
  lemma {:induction false} FenceGone(s: string)
    ensures !Contains(RemoveFence(s, Fence), Fence)
    decreases |s|
  {
    if StartsWith(s, Fence) {
      var rest := s[|Fence|..];
      if rest != [] && rest[0] == '\n' {
        FenceGone(rest[1..]);
      } else {
        FenceGone(rest);
      }
    } else if s != [] {
      var r := RemoveFence(s, Fence);
      var tail := RemoveFence(s[1..], Fence);
      FenceGone(s[1..]);
      assert r == [s[0]] + tail;
      assert r[1..] == tail;
    }
  }

  /** No slice of a fence-free text holds a fence. */
  lemma NoFenceInSlice(s: string, i: nat, j: nat)
    requires i <= j <= |s| && !Contains(s, Fence)
    ensures !Contains(s[i..j], Fence)
  {
    if Contains(s[i..j], Fence) {
      ContainsSlice(s, Fence, i, j);
    }
  }

  const SqlLabel: string := "sql:"
  const QueryLabel: string := "query:"

  /** `re.sub(r'^(SQL:|Query:)\s*', '', s, flags=re.IGNORECASE)`: one such
      label at the very start, in any letter case, with the whitespace after
      it. */
  function DropLabel(s: string): string {
    if StartsWith(Lower(s), SqlLabel) then TrimStart(s[|SqlLabel|..])
    else if StartsWith(Lower(s), QueryLabel) then TrimStart(s[|QueryLabel|..])
    else s
  }

  /** `s.split('\n')[0]` */
  function FirstLine(s: string): (r: string)
    ensures '\n' !in r
    ensures |r| <= |s| && r == s[..|r|]
    ensures |r| < |s| ==> s[|r|] == '\n'
  {
    if s == [] || s[0] == '\n' then [] else [s[0]] + FirstLine(s[1..])
  }

  /** `_extract_sql(response)` */
  function ExtractSql(response: string): (sql: string)
    ensures '\n' !in sql
    ensures EndsWith(sql, ";")
  {
    var unfenced := RemoveFence(RemoveFence(response, SqlFence), Fence);
    Terminate(FirstLine(Strip(DropLabel(unfenced))))
  }

  const Fence: string := "```"
  const SqlFence: string := Fence + "sql"

  /** Appends ';' unless the line already ends with one. */
  function Terminate(line: string): (r: string)
    ensures EndsWith(r, ";") && StartsWith(r, line)
    ensures '\n' !in line ==> '\n' !in r
    ensures EndsWith(line, ";") ==> r == line
  {
    if EndsWith(line, ";") then line
    else
      assert (line + ";")[..|line|] == line;
      line + ";"
  }

  /** The extracted SQL holds no code fence: the fences are removed first,
      and the label drop, the strip and the first line only take slices;
      the appended ';' cannot complete a fence. */
  lemma ExtractSqlUnfenced(response: string)
    ensures !Contains(ExtractSql(response), Fence)
  {
    var u := RemoveFence(RemoveFence(response, SqlFence), Fence);
    FenceGone(RemoveFence(response, SqlFence));
    var d := DropLabel(u);
    LabelDropKeepsNoFence(u);
    var ts := TrimStart(d);
    NoFenceInSlice(d, LeadingSpaces(d), |d|);
    assert ts == d[LeadingSpaces(d)..|d|];
    var st := Strip(d);
    NoFenceInSlice(ts, 0, |st|);
    assert st == ts[0..|st|];
    var line := FirstLine(st);
    NoFenceInSlice(st, 0, |line|);
    assert line == st[0..|line|];
    TerminateKeepsNoFence(line);
  }

  lemma LabelDropKeepsNoFence(u: string)
    requires !Contains(u, Fence)
    ensures !Contains(DropLabel(u), Fence)
  {
    var n := if StartsWith(Lower(u), SqlLabel) then |SqlLabel| else if StartsWith(Lower(u), QueryLabel) then |QueryLabel| else 0;
    if n > 0 {
      var v := u[n..];
      NoFenceInSlice(u, n, |u|);
      assert v == u[n..|u|];
      NoFenceInSlice(v, LeadingSpaces(v), |v|);
      assert TrimStart(v) == v[LeadingSpaces(v)..|v|];
    }
  }

  /** No fence starts at position k of a fence-free line with ';' appended. */
  lemma NoFenceAtAfterSemicolon(line: string, k: nat)
    requires !Contains(line, Fence) && k + |Fence| <= |line| + 1
    ensures (line + ";")[k..k + |Fence|] != Fence
  {
    var t := line + ";";
    if k + |Fence| <= |line| {
      assert t[k..k + |Fence|] == line[k..k + |Fence|];
      if line[k..k + |Fence|] == Fence {
        ContainsAt(line, Fence, k);
      }
    } else {
      assert t[k..k + |Fence|][2] == ';';
    }
  }

  lemma TerminateKeepsNoFence(line: string)
    requires !Contains(line, Fence)
    ensures !Contains(Terminate(line), Fence)
  {
    if !EndsWith(line, ";") && Contains(line + ";", Fence) {
      var k := ContainsWitness(line + ";", Fence);
      NoFenceAtAfterSemicolon(line, k);
    }
  }

  /** A response that is already one clean statement comes back unchanged. */
  lemma ExtractSqlKeepsCleanStatement(s: string)
    requires !Contains(s, Fence) && '\n' !in s
    requires DropLabel(s) == s && Strip(s) == s && EndsWith(s, ";")
    ensures ExtractSql(s) == s
  {
    NoFenceNoSqlFence(s);
    RemoveFenceAbsent(s, SqlFence);
    RemoveFenceAbsent(s, Fence);
    NoNewlineFirstLine(s);
  }

  lemma {:induction false} NoFenceNoSqlFence(s: string)
    requires !Contains(s, Fence)
    ensures !Contains(s, SqlFence)
  {
    if Contains(s, SqlFence) {
      var i := ContainsWitness(s, SqlFence);
      assert s[i..i + |Fence|] == SqlFence[..|Fence|] == Fence;
      ContainsAt(s, Fence, i);
    }
  }

  /** A statement that starts with a letter other than q or s has no label
      to drop. */
  lemma NoLabel(s: string)
    requires s != [] && ToLowerChar(s[0]) != 's' && ToLowerChar(s[0]) != 'q'
    ensures DropLabel(s) == s
  {
    assert Lower(s)[0] == ToLowerChar(s[0]);
  }

  lemma {:induction false} NoNewlineFirstLine(s: string)
    requires '\n' !in s
    ensures FirstLine(s) == s
  {
    if s != [] {
      NoNewlineFirstLine(s[1..]);
    }
  }

  /** A leading label is dropped whatever its letter case ("SQL:",
      "Query:", "sQl:" ...), with the whitespace after it. */
  lemma LabelDropped(tag: string, pad: string, s: string)
    requires Lower(tag) == SqlLabel || Lower(tag) == QueryLabel
    requires forall i :: 0 <= i < |pad| ==> IsSpace(pad[i])
    requires s == [] || !IsSpace(s[0])
    ensures DropLabel(tag + pad + s) == s
  {
    var t := tag + pad + s;
    assert Lower(t)[..|tag|] == Lower(tag);
    assert t[|tag|..] == pad + s;
    TrimStartOverSpaces(pad, s);
    if Lower(tag) == QueryLabel {
      assert Lower(t)[0] == QueryLabel[0] != SqlLabel[0];
    }
  }

  lemma {:induction false} TrimStartOverSpaces(pad: string, s: string)
    requires forall i :: 0 <= i < |pad| ==> IsSpace(pad[i])
    requires s == [] || !IsSpace(s[0])
    ensures TrimStart(pad + s) == s
  {
    if pad == [] {
      assert pad + s == s;
    } else {
      assert (pad + s)[1..] == pad[1..] + s;
      TrimStartOverSpaces(pad[1..], s);
    }
  }

  // ---------------------------------------------------------------------
  // `_is_safe_query`

  const Forbidden: seq<string> :=
    ["INSERT", "UPDATE", "DELETE", "DROP", "ALTER", "CREATE", "TRUNCATE", "REPLACE", "GRANT", "REVOKE"]

  /** Read-only as the gate understands it: no forbidden word anywhere in
      the upper-cased text (as a plain substring), and the stripped
      upper-cased text starts with SELECT. */
  predicate IsSafe(sql: string) {
    (forall k :: 0 <= k < |Forbidden| ==> !Contains(Upper(sql), Forbidden[k])) &&
    StartsWith(Strip(Upper(sql)), "SELECT")
  }

  lemma UpperConcat(a: string, b: string)
    ensures Upper(a + b) == Upper(a) + Upper(b)
  {
  }

  /** The check is on substrings, so any mention of a column such as
      `created_at` makes a query unsafe. */
  lemma CreatedAtIsUnsafe(a: string, b: string)
    ensures !IsSafe(a + "created_at" + b)
  {
    UpperConcat(a + "created_at", b);
    UpperConcat(a, "created_at");
    var u := Upper(a) + Upper("created_at") + Upper(b);
    assert Upper("created_at")[..6] == "CREATE";
    assert u[|Upper(a)|..|Upper(a)| + 6] == "CREATE";
    ContainsAt(u, "CREATE", |Upper(a)|);
    assert Forbidden[5] == "CREATE";
  }

  /** A safe query's stripped text starts with SELECT in some letter case. */
  lemma SafeStartsWithSelect(sql: string)
    requires IsSafe(sql)
    ensures |Strip(Upper(sql))| >= 6 && Strip(Upper(sql))[..6] == "SELECT"
  {
  }

  // ---------------------------------------------------------------------
  // `_format_results`

  /** One value made JSON-friendly: a date becomes its ISO text, a value
      with `__float__` (integers, decimals, booleans, floats) a float, and
      anything else is kept. */
  function Normalize(v: Value): (r: Value)
    ensures v.VDate? ==> r == VText(v.iso)
    ensures (v.VInt? || v.VDecimal? || v.VBool? || v.VFloat?) ==> r.VFloat?
    ensures (v.VText? || v.VNull?) ==> r == v
  {
    match v
    case VDate(iso) => VText(iso)
    case VInt(i) => VFloat(i as real)
    case VDecimal(d) => VFloat(d)
    case VBool(b) => VFloat(if b then 1.0 else 0.0)
    case VFloat(f) => VFloat(f)
    case _ => v
  }

  function NormalizeRow(row: Row): (r: Row)
    ensures Keys(r) == Keys(row)
  {
    seq(|row|, i requires 0 <= i < |row| => (row[i].0, Normalize(row[i].1)))
  }

  /** The rows `_format_results` returns. */
  function NormalizeRows(rows: seq<Row>): (r: seq<Row>)
    ensures |r| == |rows|
  {
    seq(|rows|, i requires 0 <= i < |rows| => NormalizeRow(rows[i]))
  }

  /** No value is left that JSON cannot take as is: no dates, no integers,
      no decimals, no booleans. */
  lemma NormalizedRowsAreJsonReady(rows: seq<Row>)
    ensures forall i, j :: 0 <= i < |NormalizeRows(rows)| && 0 <= j < |NormalizeRows(rows)[i]| ==>
      var v := NormalizeRows(rows)[i][j].1;
      !v.VDate? && !v.VInt? && !v.VDecimal? && !v.VBool?
  {
  }

  /** Normalizing is idempotent. */
  lemma NormalizeIdempotent(rows: seq<Row>)
    ensures NormalizeRows(NormalizeRows(rows)) == NormalizeRows(rows)
  {
    forall i | 0 <= i < |rows| ensures NormalizeRow(NormalizeRow(rows[i])) == NormalizeRow(rows[i]) {
      forall j | 0 <= j < |rows[i]| ensures Normalize(Normalize(rows[i][j].1)) == Normalize(rows[i][j].1) {
      }
    }
  }

  // ---------------------------------------------------------------------
  // Prompts

  /** The prompt `_generate_sql_with_ai` sends. */
  function AiPrompt(question: string): string {
    "Question: " + question + "\nSQL:"
  }

  /** The prompt `_explain_results` sends: the question, the first five rows
      as JSON, and the row count. */
  function ExplainPrompt(question: string, rows: seq<Row>, dumps: seq<Row> -> string): string {
    ExplainIntro + question +
    "\nResults: " + dumps(rows[..Min(5, |rows|)]) +
    "\nTotal Rows: " + NatToString(|rows|) +
    ExplainClosing
  }

  const ExplainIntro: string := "\nGiven this analytics question and results, provide a concise summary.\n\nQuestion: "
  const ExplainClosing: string := "\n\nProvide a 2-3 sentence summary.\n"

  // ---------------------------------------------------------------------
  // The cascade as a value

  const FreeCost: string := "$0"
  const AiCost: string := "$0.0006"

  /** The `cost_estimate` field: model-generated SQL is the only paid tier. */
  function CostEstimate(source: Source): string {
    if source != Ai then FreeCost else AiCost
  }

  datatype Resolution = Resolved(sql: string, source: Source) | Unresolved(error: string)

  /** A non-empty SQL string: Python's truth test on the SQL. */
  predicate Present(sql: Option<string>) {
    sql.Some? && sql.value != ""
  }

  /** Which SQL the cascade settles on: the cached SQL if any; else the
      template's (a formatting error ends the call); else the model's reply
      run through `_extract_sql` (all providers failing ends the call). */
  function Resolve(cached: Option<string>, templated: Result<Option<string>>,
                   agents: seq<(string, Option<BaseAgent.Agent>)>, question: string): Resolution
  {
    if Present(cached) then Resolved(cached.value, Cache)
    else match templated
      case Err(e) => Unresolved(e)
      case Ok(t) =>
        if Present(t) then Resolved(t.value, Template)
        else match BaseAgent.RunFrom(agents, BaseAgent.ProviderOrder, 0, AiPrompt(question))
          case Err(e) => Unresolved(e)
          case Ok(reply) => Resolved(ExtractSql(reply), Ai)
  }

  /** The answer for a resolution: the unsafe report without executing
      anything, or the executed and normalized rows with the optional
      explanation; any exception on the way becomes `{error, question}`. */
  function AnswerFor(r: Resolution, question: string, db: Executor, explain: bool,
                   agents: seq<(string, Option<BaseAgent.Agent>)>, dumps: seq<Row> -> string): Answer
  {
    match r
    case Unresolved(e) => Failed(e, question)
    case Resolved(sql, source) =>
      if !IsSafe(sql) then Unsafe(UnsafeMessage, sql, source)
      else Executed(sql, source, question, db, explain, agents, dumps)
  }

  /** The answer once the SQL passed the gate: the executed, normalized
      rows and, when asked for and there are rows, the explanation. */
  function Executed(sql: string, source: Source, question: string, db: Executor, explain: bool,
                    agents: seq<(string, Option<BaseAgent.Agent>)>, dumps: seq<Row> -> string): (a: Answer)
    ensures !a.Unsafe?
    ensures a.Answered? ==>
      a.sqlQuery == sql && a.source == source && a.rowCount == |a.results| &&
      (a.explanation.Some? ==> explain && a.results != []) &&
      (!explain || a.results == [] ==> a.explanation == None) &&
      (a.costEstimate == FreeCost <==> source != Ai)
  {
    match db(sql)
    case Err(e) => Failed(e, question)
    case Ok(rows) =>
      var results := NormalizeRows(rows);
      var cost := CostEstimate(source);
      if explain && results != [] then
        match BaseAgent.RunFrom(agents, BaseAgent.ProviderOrder, 0, ExplainPrompt(question, results, dumps))
        case Err(e) => Failed(e, question)
        case Ok(text) => Answered(question, sql, results, |results|, Some(Strip(text)), source, cost)
      else Answered(question, sql, results, |results|, None, source, cost)
  }

  /** Precedence: the cache answers whenever it holds SQL for the question;
      templates are consulted only on a cache miss, the model only when both
      missed; the source names the tier that produced the SQL. */
  lemma ResolvePrecedence(cached: Option<string>, templated: Result<Option<string>>,
                          agents: seq<(string, Option<BaseAgent.Agent>)>, question: string)
    ensures var r := Resolve(cached, templated, agents, question);
      (r.Resolved? && r.source == Cache <==> Present(cached)) &&
      (r.Resolved? && r.source == Template <==> !Present(cached) && templated.Ok? && Present(templated.value)) &&
      (r.Resolved? && r.source == Ai ==> !Present(cached) && templated.Ok? && !Present(templated.value)) &&
      (r.Resolved? && r.source == Cache ==> r.sql == cached.value) &&
      (r.Resolved? && r.source == Template ==> r.sql == templated.value.value)
  {
  }

  /** Model SQL is always one line ending in ';'. */
  lemma AiSqlIsOneStatement(cached: Option<string>, templated: Result<Option<string>>,
                            agents: seq<(string, Option<BaseAgent.Agent>)>, question: string)
    ensures var r := Resolve(cached, templated, agents, question);
      r.Resolved? && r.source == Ai ==> '\n' !in r.sql && EndsWith(r.sql, ";")
  {
  }

  /** Unsafe SQL is never executed: the answer does not depend on the
      database at all. */
  lemma UnsafeNeverExecuted(r: Resolution, question: string, db1: Executor, db2: Executor, explain: bool,
                            agents: seq<(string, Option<BaseAgent.Agent>)>, dumps: seq<Row> -> string)
    requires r.Resolved? && !IsSafe(r.sql)
    ensures AnswerFor(r, question, db1, explain, agents, dumps) == AnswerFor(r, question, db2, explain, agents, dumps)
    ensures AnswerFor(r, question, db1, explain, agents, dumps) == Unsafe(UnsafeMessage, r.sql, r.source)
  {
  }

  /** Conversely, the safety-check refusal is reported only for SQL that
      failed the check, naming the SQL and the tier it came from. */
  lemma UnsafeAnswerOnlyForUnsafeSql(r: Resolution, question: string, db: Executor, explain: bool,
                                     agents: seq<(string, Option<BaseAgent.Agent>)>, dumps: seq<Row> -> string)
    ensures var a := AnswerFor(r, question, db, explain, agents, dumps);
      a.Unsafe? <==> r.Resolved? && !IsSafe(r.sql)
    ensures var a := AnswerFor(r, question, db, explain, agents, dumps);
      a.Unsafe? ==> a == Unsafe(UnsafeMessage, r.sql, r.source)
  {
  }

  /** An explanation is asked for only when `explain` is set and there are
      rows; the row count is the number of rows returned. */
  lemma ExplanationOnlyWithRows(r: Resolution, question: string, db: Executor, explain: bool,
                                agents: seq<(string, Option<BaseAgent.Agent>)>, dumps: seq<Row> -> string)
    ensures var a := AnswerFor(r, question, db, explain, agents, dumps);
      a.Answered? ==>
        a.rowCount == |a.results| &&
        (a.explanation.Some? ==> explain && a.results != []) &&
        (!explain || a.results == [] ==> a.explanation == None) &&
        (a.costEstimate == FreeCost <==> a.source != Ai)
  {
  }

  /** Executed SQL passed the gate. */
  lemma AnsweredSqlIsSafe(r: Resolution, question: string, db: Executor, explain: bool,
                          agents: seq<(string, Option<BaseAgent.Agent>)>, dumps: seq<Row> -> string)
    ensures var a := AnswerFor(r, question, db, explain, agents, dumps);
      a.Answered? ==> IsSafe(a.sqlQuery) && r == Resolved(a.sqlQuery, a.source)
  {
    var a := AnswerFor(r, question, db, explain, agents, dumps);
    if a.Answered? {
      assert r.Resolved? && IsSafe(r.sql);
      assert a.sqlQuery == r.sql && a.source == r.source;
    }
  }

  /** As written, a question first matched by an `avg_vital_sign` pattern
      (which captures no group) resolves on a cache miss to the stored
      template SQL with its `{field}` placeholder still in it; that SQL is
      what gets cached, checked and sent to the database. */
  lemma FieldPlaceholderResolved(search: QueryTemplates.Search, ts: seq<QueryTemplates.Template>, question: string, p: nat,
                                 agents: seq<(string, Option<BaseAgent.Agent>)>)
    requires |ts| > QueryTemplates.AvgVitalIndex && ts[QueryTemplates.AvgVitalIndex] == QueryTemplates.AvgVitalTemplate
    requires QueryTemplates.FirstMatchIs(search, ts, Strip(Lower(question)), QueryTemplates.AvgVitalIndex, p, [])
    ensures var r := Resolve(None, QueryTemplates.MatchSpec(QueryTemplates.AsWritten, search, ts, question), agents, question);
      r == Resolved(QueryTemplates.Render(QueryTemplates.AvgVitalSql), Template) && Contains(r.sql, "{field}")
  {
    QueryTemplates.FieldLeftUnreplaced(search, ts, question, p);
  }

  /** Reading a key and then storing it leaves the table as if the value
      had simply been stored. */
  lemma TouchThenStore(c: map<string, QueryCache.Entry>, key: string, now: int, ttl: int, e: QueryCache.Entry)
    ensures QueryCache.Touch(c, key, now, ttl)[key := e] == c[key := e]
  {
  }

  // ---------------------------------------------------------------------
  // The agent object

  /** `get_stats` without the formatted percentages and cost figure:
      the counters, plus the cache's statistics once a question was asked. */
  datatype AgentStats = AgentStats(
    totalQueries: nat, cacheHits: nat, templateMatches: nat, aiGenerations: nat,
    cacheStats: Option<QueryCache.CacheStats>)

  const ExampleQuestions: seq<string> := [
    "How many visits were made in the last 30 days?",
    "What is the average duration of visits?",
    "Which patient has the most visits?",
    "How many urgent visits vs routine visits?",
    "What's the average heart rate across all visits?",
    "Show patients who haven't visited in 60 days",
    "What are the most common diagnoses?",
    "How many patients do we have?",
    "Show visit trends by month"]

  class AnalyticsAgent {
    const cache: QueryCache.QueryCache
    const templates: QueryTemplates.QueryTemplates
    const aiAgent: BaseAgent.FallbackAgent

    var totalQueries: nat
    var cacheHits: nat
    var templateMatches: nat
    var aiGenerations: nat

    /** The cache is sound and holds a 24-hour lifetime, and at most one
        tier is counted per question. */
    ghost predicate Valid()
      reads this, cache
    {
      cache.Valid() && cache.ttl == 24 * 3600 &&
      cacheHits + templateMatches + aiGenerations <= totalQueries
    }

    constructor (ai: BaseAgent.FallbackAgent)
      ensures Valid() && fresh(cache) && aiAgent == ai
      ensures templates.templates == QueryTemplates.Templates
      ensures totalQueries == 0 && cacheHits == 0 && templateMatches == 0 && aiGenerations == 0
      ensures cache.cache == map[]
    {
      cache := new QueryCache.QueryCache(24);
      templates := new QueryTemplates.QueryTemplates();
      aiAgent := ai;
      totalQueries, cacheHits, templateMatches, aiGenerations := 0, 0, 0, 0;
    }

    /** `_is_safe_query(sql)` */
    static method IsSafeQuery(sql: string) returns (safe: bool)
      ensures safe == IsSafe(sql)
    {
      var upper := Upper(sql);
      var k := 0;
      while k < |Forbidden|
        invariant 0 <= k <= |Forbidden|
        invariant forall j :: 0 <= j < k ==> !Contains(upper, Forbidden[j])
      {
        if Contains(upper, Forbidden[k]) {
          return false;
        }
        k := k + 1;
      }
      if !StartsWith(Strip(upper), "SELECT") {
        return false;
      }
      return true;
    }

    /** `_format_results(rows)` */
    static method FormatResults(rows: seq<Row>) returns (formatted: seq<Row>)
      ensures formatted == NormalizeRows(rows)
    {
      if rows == [] {
        return [];
      }
      formatted := [];
      var i := 0;
      while i < |rows|
        invariant 0 <= i <= |rows|
        invariant formatted == NormalizeRows(rows[..i])
      {
        var row := rows[i];
        var formattedRow: Row := [];
        var j := 0;
        while j < |row|
          invariant 0 <= j <= |row|
          invariant formattedRow == NormalizeRow(row[..j])
        {
          formattedRow := formattedRow + [(row[j].0, Normalize(row[j].1))];
          j := j + 1;
        }
        assert row[..j] == row;
        formatted := formatted + [formattedRow];
        i := i + 1;
      }
      assert rows[..i] == rows;
    }

    /** The SQL-producing half of `answer_analytics_question`: counts the
        question, then tries the cache, the templates and the model in that
        order, counting the tier that answered and caching template and
        model SQL. */
    method ResolveSql(question: string, now: int, search: QueryTemplates.Search)
      returns (r: Resolution)
      requires Valid()
      modifies this, cache
      ensures Valid()
      ensures r == Resolve(QueryCache.Fresh(old(cache.cache), QueryCache.CacheKey(question), now, cache.ttl),
                           QueryTemplates.MatchSpec(QueryTemplates.AsWritten, search, templates.templates, question),
                           aiAgent.agents, question)
      ensures totalQueries == old(totalQueries) + 1
      ensures cacheHits == old(cacheHits) + (if r.Resolved? && r.source == Cache then 1 else 0)
      ensures templateMatches == old(templateMatches) + (if r.Resolved? && r.source == Template then 1 else 0)
      ensures aiGenerations == old(aiGenerations) + (if r.Resolved? && r.source == Ai then 1 else 0)
      ensures r.Resolved? && r.source != Cache ==>
                cache.cache == old(cache.cache)[QueryCache.CacheKey(question) := QueryCache.Stored(question, r.sql, now)]
      ensures !(r.Resolved? && r.source != Cache) ==>
                cache.cache == QueryCache.Touch(old(cache.cache), QueryCache.CacheKey(question), now, cache.ttl)
      ensures r.Resolved? && r.source != Cache ==>
                cache.order == QueryCache.OrderAfterSet(QueryCache.OrderAfterGet(old(cache.order), old(cache.cache), QueryCache.CacheKey(question), now, cache.ttl),
                                 QueryCache.Touch(old(cache.cache), QueryCache.CacheKey(question), now, cache.ttl),
                                 QueryCache.CacheKey(question))
      ensures !(r.Resolved? && r.source != Cache) ==> cache.order == QueryCache.OrderAfterGet(old(cache.order), old(cache.cache), QueryCache.CacheKey(question), now, cache.ttl)
    {
      totalQueries := totalQueries + 1;
      var cached := cache.Get(question, now);
      if Present(cached) {
        cacheHits := cacheHits + 1;
        r := Resolved(cached.value, Cache);
        return;
      }
      ghost var tpl := QueryTemplates.MatchSpec(QueryTemplates.AsWritten, search, templates.templates, question);
      r := ResolveUncached(question, now, search);
      assert r == Resolve(cached, tpl, aiAgent.agents, question) by {
        assert r == Resolve(None, tpl, aiAgent.agents, question);
      }
      if r.Resolved? {
        TouchThenStore(old(cache.cache), QueryCache.CacheKey(question), now, cache.ttl, QueryCache.Stored(question, r.sql, now));
      }
    }

    /** The tiers after a cache miss: the templates, then the model. The
        question is already counted, so one more tier count keeps the
        counters within the total. */
    method ResolveUncached(question: string, now: int, search: QueryTemplates.Search)
      returns (r: Resolution)
      requires Valid() && cacheHits + templateMatches + aiGenerations < totalQueries
      modifies this, cache
      ensures Valid()
      ensures r == Resolve(None, QueryTemplates.MatchSpec(QueryTemplates.AsWritten, search, templates.templates, question),
                           aiAgent.agents, question)
      ensures totalQueries == old(totalQueries) && cacheHits == old(cacheHits)
      ensures templateMatches == old(templateMatches) + (if r.Resolved? && r.source == Template then 1 else 0)
      ensures aiGenerations == old(aiGenerations) + (if r.Resolved? && r.source == Ai then 1 else 0)
      ensures r.Resolved? ==>
                cache.cache == old(cache.cache)[QueryCache.CacheKey(question) := QueryCache.Stored(question, r.sql, now)]
      ensures !r.Resolved? ==> cache.cache == old(cache.cache)
      ensures r.Resolved? ==> cache.order == QueryCache.OrderAfterSet(old(cache.order), old(cache.cache), QueryCache.CacheKey(question))
      ensures !r.Resolved? ==> cache.order == old(cache.order)
    {
      var templated := templates.Match(QueryTemplates.AsWritten, search, question);
      if templated.Err? {
        return Unresolved(templated.error);
      }
      if Present(templated.value) {
        templateMatches := templateMatches + 1;
        cache.Set(question, templated.value.value, now);
        return Resolved(templated.value.value, Template);
      }
      var reply, _ := aiAgent.RunAsync(AiPrompt(question));
      if reply.Err? {
        return Unresolved(reply.error);
      }
      var sql := ExtractSql(reply.value);
      aiGenerations := aiGenerations + 1;
      cache.Set(question, sql, now);
      r := Resolved(sql, Ai);
    }

    /** The answering half: the safety gate, execution, normalization and
        the optional explanation. */
    method Execute(r: Resolution, question: string, db: Executor, explain: bool, dumps: seq<Row> -> string)
      returns (answer: Answer)
      ensures answer == AnswerFor(r, question, db, explain, aiAgent.agents, dumps)
    {
      if r.Unresolved? {
        return Failed(r.error, question);
      }
      var safe := IsSafeQuery(r.sql);
      if !safe {
        return Unsafe(UnsafeMessage, r.sql, r.source);
      }
      var rows := db(r.sql);
      if rows.Err? {
        return Failed(rows.error, question);
      }
      var results := FormatResults(rows.value);
      var explanation := None;
      if explain && results != [] {
        var text, _ := aiAgent.RunAsync(ExplainPrompt(question, results, dumps));
        if text.Err? {
          return Failed(text.error, question);
        }
        explanation := Some(Strip(text.value));
      }
      return Answered(question, r.sql, results, |results|, explanation, r.source, CostEstimate(r.source));
    }

    /** `answer_analytics_question(question, db, explain)` at time `now`,
        with `search` standing for the regular-expression engine. */
    method AnswerAnalyticsQuestion(question: string, db: Executor, explain: bool, now: int,
                                   search: QueryTemplates.Search, dumps: seq<Row> -> string)
      returns (answer: Answer, ghost r: Resolution)
      requires Valid()
      modifies this, cache
      ensures Valid()
      ensures r == Resolve(QueryCache.Fresh(old(cache.cache), QueryCache.CacheKey(question), now, cache.ttl),
                           QueryTemplates.MatchSpec(QueryTemplates.AsWritten, search, templates.templates, question),
                           aiAgent.agents, question)
      ensures answer == AnswerFor(r, question, db, explain, aiAgent.agents, dumps)
      ensures totalQueries == old(totalQueries) + 1
      ensures cacheHits == old(cacheHits) + (if r.Resolved? && r.source == Cache then 1 else 0)
      ensures templateMatches == old(templateMatches) + (if r.Resolved? && r.source == Template then 1 else 0)
      ensures aiGenerations == old(aiGenerations) + (if r.Resolved? && r.source == Ai then 1 else 0)
      ensures r.Resolved? && r.source != Cache ==>
                cache.cache == old(cache.cache)[QueryCache.CacheKey(question) := QueryCache.Stored(question, r.sql, now)]
      ensures !(r.Resolved? && r.source != Cache) ==>
                cache.cache == QueryCache.Touch(old(cache.cache), QueryCache.CacheKey(question), now, cache.ttl)
      ensures r.Resolved? && r.source != Cache ==>
                cache.order == QueryCache.OrderAfterSet(QueryCache.OrderAfterGet(old(cache.order), old(cache.cache), QueryCache.CacheKey(question), now, cache.ttl),
                                 QueryCache.Touch(old(cache.cache), QueryCache.CacheKey(question), now, cache.ttl),
                                 QueryCache.CacheKey(question))
      ensures !(r.Resolved? && r.source != Cache) ==> cache.order == QueryCache.OrderAfterGet(old(cache.order), old(cache.cache), QueryCache.CacheKey(question), now, cache.ttl)
    {
      var resolution := ResolveSql(question, now, search);
      r := resolution;
      answer := Execute(resolution, question, db, explain, dumps);
    }

    /** `get_stats()` */
    function GetStats(): (s: AgentStats)
      reads this, cache
      requires Valid()
      ensures s.totalQueries == totalQueries && s.cacheHits == cacheHits &&
              s.templateMatches == templateMatches && s.aiGenerations == aiGenerations
      ensures s.cacheHits + s.templateMatches + s.aiGenerations <= s.totalQueries
      ensures s.cacheStats.Some? <==> totalQueries > 0
      ensures s.cacheStats.Some? ==> s.cacheStats.value.totalCachedQuery == |cache.cache|
      ensures s.cacheStats.Some? ==>
        var items := cache.Items();
        s.cacheStats.value.totalCacheHits == QueryCache.SumHits(items) &&
        |s.cacheStats.value.mostPopular| == Min(5, |cache.cache|) &&
        |s.cacheStats.value.mostPopular| <= |QueryCache.SortByHits(items)| &&
        s.cacheStats.value.mostPopular == QueryCache.SortByHits(items)[..|s.cacheStats.value.mostPopular|]
    {
      AgentStats(totalQueries, cacheHits, templateMatches, aiGenerations,
                 if totalQueries == 0 then None else Some(cache.GetStats()))
    }

    /** `get_example_questions()` */
    function GetExampleQuestions(): (qs: seq<string>)
      ensures |qs| == 9 && qs[4] == "What's the average heart rate across all visits?"
    {
      ExampleQuestions
    }
  }

  /** Unsafe model SQL is written to the cache before the safety check, so
      asking the same question again (within the cache lifetime) fails the
      same way, now with source "cache" and without consulting the model. */
  method UnsafeAiSqlIsReplayed(agent: AnalyticsAgent, question: string, db: Executor, now: int, later: int,
                               search: QueryTemplates.Search, dumps: seq<Row> -> string)
    returns (first: Answer, second: Answer)
    requires agent.Valid() && now <= later <= now + 24 * 3600
    modifies agent, agent.cache
    ensures first.Unsafe? && first.source == Ai ==> second == Unsafe(UnsafeMessage, first.query, Cache)
  {
    ghost var r1, r2;
    ghost var templated := QueryTemplates.MatchSpec(QueryTemplates.AsWritten, search, agent.templates.templates, question);
    ghost var agents := agent.aiAgent.agents;
    ghost var key := QueryCache.CacheKey(question);
    ghost var before := QueryCache.Fresh(agent.cache.cache, key, now, 24 * 3600);
    first, r1 := agent.AnswerAnalyticsQuestion(question, db, true, now, search, dumps);
    if first.Unsafe? && first.source == Ai {
      UnsafeAnswerOnlyForUnsafeSql(r1, question, db, true, agents, dumps);
      AiSqlIsOneStatement(before, templated, agents, question);
      ghost var stored := agent.cache.cache;
      assert stored[key] == QueryCache.Stored(question, first.query, now);
      ghost var cached := QueryCache.Fresh(stored, key, later, 24 * 3600);
      assert cached == Some(first.query);
      second, r2 := agent.AnswerAnalyticsQuestion(question, db, true, later, search, dumps);
      ResolvePrecedence(cached, templated, agents, question);
    } else {
      second := first;
    }
  }
}

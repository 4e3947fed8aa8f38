# Medical assistant: question answering core, in Dafny

This project models the core of a medical-records assistant. It also proves properties of that model.

The core answers a doctor's question in one of two ways:

- **Analytics questions** go through a cost-ordered SQL cascade:
  1. an in-memory query cache with a time-to-live;
  2. a fixed table of regex-matched SQL templates;
  3. a language model behind a provider-fallback loop.

  The SQL then passes a read-only safety gate, is executed, and its rows are normalised for JSON.
- **All other questions** go through a four-node conversation pipeline: intent extraction, entity resolution, database query and response generation. A router decides which nodes run.

Beside the cascade and the pipeline sit small helpers, each modelled with its own contracts:

- page metadata for list endpoints;
- age from a birth date;
- Server-Sent Events framing and a batching stream buffer;
- the vital-sign and lab-result Markdown tables;
- the user schema's validation rules;
- the CORS-origin setting parser;
- the `.env` line rewriter used when rotating credentials.

There is one Dafny module per source file, plus `Common` for the shared pieces: Option and Result, ASCII string helpers, a JSON value type and database row values. Anything outside the program is a parameter:

- the regex engine;
- the language-model providers;
- the database;
- `json.loads`/`json.dumps` and Python's `str()` of floats, lists and dicts;
- e-mail syntax;
- the clock.

The model keeps the source's own form:

- **Classes with methods over their fields:** the cache, the template matcher, the fallback agent, the analytics agent and the stream buffer.
- **Loops, each a method proved against a recursive specification function:** the formatters, the SSE stream, the credential rewriter and the provider loop.
- **Functions with lemmas:** the pipeline nodes, the router and the other helpers.

A model-generated SQL reply is cut at its first line, as `_extract_sql` does. It is not cut at its first semicolon.

## Model

| member | source | states |
|---|---|---|
| QueryCache.NormalizeQuestion | app/agents/query_cache.py:16-19 | the key has no whitespace and no upper-case letter |
| QueryCache.NormalFormIsOwnKey | app/agents/query_cache.py:16-19 | a question with no whitespace and no upper-case letter is its own key; with the case and whitespace lemmas this fixes the key of every question |
| QueryCache.NormalizeIdempotent | app/agents/query_cache.py:16-19 | normalising a normalised question changes nothing |
| QueryCache.NormalizeIgnoresCase | app/agents/query_cache.py:16-19 | a question and its lower-cased form share a key |
| QueryCache.NormalizeIgnoresSpace | app/agents/query_cache.py:16-19 | inserting a whitespace character anywhere leaves the key unchanged |
| QueryCache.Fresh | app/agents/query_cache.py:26-44 | a read hits exactly when the key is present and its age is at most the lifetime (age equal to the lifetime is still a hit), and then gives the stored SQL |
| QueryCache.Touch | app/agents/query_cache.py:30-42 | after a read the key stays exactly when it was a hit; all other entries are unchanged; a hit keeps its SQL and timestamp, gains one hit and records the read time |
| QueryCache.SetThenGet | app/agents/query_cache.py:16-56 | after storing under q1, reading any q2 with the same normalised form gives the SQL while it is fresh, and nothing after |
| QueryCache.ReadsDoNotExtendLifetime | app/agents/query_cache.py:36-53 | a read never changes whether a later read hits: the lifetime runs from the store, not from the last access |
| QueryCache.SortByHitsSorted | app/agents/query_cache.py:64 | sorting by hits gives a non-increasing order that is a permutation of its input |
| QueryCache.SortByHitsStable | app/agents/query_cache.py:64 | items with equal hits keep their relative order |
| QueryCache.InsertMultiset | app/agents/query_cache.py:64 | inserting an item adds exactly that item |
| QueryCache.InsertKeepsSorted | app/agents/query_cache.py:64 | inserting into a list in non-increasing hit order keeps that order |
| QueryCache.InsertWithHits | app/agents/query_cache.py:64 | among items with the same hit count, the inserted one goes after those already there |
| QueryCache.QueryCache.constructor | app/agents/query_cache.py:11-13 | the cache starts empty, with a lifetime of ttl_hours times 3600 seconds |
| QueryCache.QueryCache.Get | app/agents/query_cache.py:26-44 | returns Fresh on the old table; the new table is Touch of the old one; the iteration order loses exactly an expired key and is otherwise unchanged |
| QueryCache.QueryCache.Set | app/agents/query_cache.py:46-56 | overwrites the key with the new SQL, zero hits and the current time, whatever was there; other entries are unchanged; a new key goes last in the iteration order, an existing one keeps its place |
| QueryCache.StoreAfterMissGoesLast | app/agents/query_cache.py:26-56 | a read that misses and the store that follows it leave the other keys in their order with the key after them |
| QueryCache.TopOfSorted | app/agents/query_cache.py:64-72 | the first n items of the sort by hits are in non-increasing hit order and each is an item |
| QueryCache.QueryCache.Items | app/agents/query_cache.py:61-64 | item i is the question and hit count of the i-th key in iteration order |
| QueryCache.QueryCache.GetStats | app/agents/query_cache.py:58-73 | the entry count; the sum of hits; the first min(5, entries) items of the stable sort by hits, descending (so the top five, ties in insertion order), each an entry |
| QueryTemplates.FormatOkIff | app/agents/query_templates.py:157 | filling placeholders succeeds exactly when every placeholder has a value |
| QueryTemplates.FormatWithoutSlots | app/agents/query_templates.py:157 | text without placeholders is returned as written |
| QueryTemplates.MappedField | app/agents/query_templates.py:147-152 | a mapped name is found exactly when some mapping key occurs in the question, and it is the value of the first such key in mapping order |
| QueryTemplates.FirstMatchIsHit | app/agents/query_templates.py:132-159 | the first pattern in table order that matches is the one used; earlier templates and earlier patterns did not match |
| QueryTemplates.PatternHitFromSound | app/agents/query_templates.py:135-138 | the pattern scan returns the first pattern that matches, with its groups, or reports that none matches |
| QueryTemplates.FirstHitIsFirst | app/agents/query_templates.py:134-161 | the template scan returns a real match that no earlier template and no earlier pattern of its template makes, or reports that nothing matches |
| QueryTemplates.NoneIffNoPatternMatches | app/agents/query_templates.py:134-161 | match returns None exactly when no pattern of any template matches |
| QueryTemplates.MatchIgnoresCaseAndPadding | app/agents/query_templates.py:132 | padding the question with whitespace or upper-casing it does not change the result |
| QueryTemplates.VerbatimWithoutParams | app/agents/query_templates.py:141-157 | a template without parameters gives its SQL exactly as written |
| QueryTemplates.OneSlotFilled | app/agents/query_templates.py:140-159 | a first-matched template with one placeholder whose parameter is bound to v gives its SQL with v in the placeholder |
| QueryTemplates.FieldSlotsFilled | app/agents/query_templates.py:140-159 | a first-matched template of the avg_vital_sign shape gives its SQL with the bound value in both `{field}` placeholders |
| QueryTemplates.UncapturedLeftAsStored | app/agents/query_templates.py:141-157 | as written, a one-parameter template whose pattern captured nothing is returned exactly as stored |
| QueryTemplates.PatientCountVerbatim | app/agents/query_templates.py:37-46 | a question first matched by patient_count gives exactly `SELECT COUNT(*) as patient_count FROM patients;` |
| QueryTemplates.DaysSubstituted | app/agents/query_templates.py:142-157 | for visits_count_days and inactive_patients the first captured group replaces `{days}` |
| QueryTemplates.FieldLeftUnreplaced | app/agents/query_templates.py:79-157 | as written, an avg_vital_sign match with no captured group returns the SQL with `{field}` still in it |
| QueryTemplates.AvgVitalShowsField | app/agents/query_templates.py:79-92 | the stored avg_vital_sign SQL shows its `{field}` placeholder |
| QueryTemplates.FieldFromMappingWhenCaptured | app/agents/query_templates.py:143-154 | as written, a captured field takes the first mapping key found in the question, else the captured text, in both placeholders |
| QueryTemplates.FieldAlwaysReplaced | app/agents/query_templates.py:79-157 | corrected binder: whenever a mapping key occurs in the question, both `{field}` placeholders get the mapped name, with or without a captured group |
| QueryTemplates.HeartRateQuestion | app/agents/query_templates.py:79-92 | corrected binder: a question mentioning "heart rate" asks for the heart_rate average |
| QueryTemplates.HeartRateMapped | app/agents/query_templates.py:79-92 | any text mentioning "heart rate" maps the field to heart_rate |
| QueryTemplates.PatternCount | app/agents/query_templates.py:14-125 | the table holds 23 patterns |
| QueryTemplates.QueryTemplates.constructor | app/agents/query_templates.py:9-10 | the templates are the fixed table |
| QueryTemplates.QueryTemplates.FindMappedField | app/agents/query_templates.py:149-152 | the loop returns MappedField |
| QueryTemplates.QueryTemplates.BindParams | app/agents/query_templates.py:140-154 | the loop builds the params dict: parameter i is bound only when the match has at least i groups |
| QueryTemplates.QueryTemplates.Match | app/agents/query_templates.py:127-161 | the nested loops with early return compute the first-match specification |
| QueryTemplates.QueryTemplates.GetSupportedPatterns | app/agents/query_templates.py:163-168 | every pattern, template by template, in order |
| AnalyticsAgent.FirstLine | app/agents/analytics_agent.py:180 | the prefix of the text up to its first line feed |
| AnalyticsAgent.RemoveFence | app/agents/analytics_agent.py:173-174 | removing a fence never lengthens the reply |
| AnalyticsAgent.RemoveFenceAbsent | app/agents/analytics_agent.py:173-174 | a reply holding no fence is left unchanged |
| AnalyticsAgent.LeadingFenceRemoved | app/agents/analytics_agent.py:173-174 | a leading fence tag is removed together with the line feed after it |
| AnalyticsAgent.FenceGone | app/agents/analytics_agent.py:173-174 | no fence survives fence removal |
| AnalyticsAgent.ExtractSql | app/agents/analytics_agent.py:170-186 | the extracted SQL holds no line feed and ends with ';' |
| AnalyticsAgent.ExtractSqlUnfenced | app/agents/analytics_agent.py:170-186 | the extracted SQL holds no fence |
| AnalyticsAgent.Terminate | app/agents/analytics_agent.py:183-184 | ';' is appended only when missing, and the line is kept as its prefix |
| AnalyticsAgent.ExtractSqlKeepsCleanStatement | app/agents/analytics_agent.py:170-186 | a reply that is already one clean statement comes back unchanged |
| AnalyticsAgent.LabelDropped | app/agents/analytics_agent.py:177 | a leading "SQL:" or "Query:" label in any letter case, and the whitespace after it, are dropped |
| AnalyticsAgent.NoLabel | app/agents/analytics_agent.py:177 | a reply whose first letter is neither s nor q, in either case, keeps its start |
| AnalyticsAgent.CreatedAtIsUnsafe | app/agents/analytics_agent.py:190-199 | any SQL mentioning `created_at` fails the gate, because the check is on substrings |
| AnalyticsAgent.SafeStartsWithSelect | app/agents/analytics_agent.py:201-204 | SQL that passes the gate, upper-cased and stripped, begins with the six letters SELECT |
| AnalyticsAgent.Normalize | app/agents/analytics_agent.py:229-235 | dates become their ISO text, numbers and booleans become floats, text and null pass through |
| AnalyticsAgent.NormalizeRow | app/agents/analytics_agent.py:227-236 | the keys and their order are kept |
| AnalyticsAgent.NormalizeRows | app/agents/analytics_agent.py:221-238 | the row count is kept |
| AnalyticsAgent.NormalizedRowsAreJsonReady | app/agents/analytics_agent.py:221-238 | no date and no integer is left in the result |
| AnalyticsAgent.NormalizeIdempotent | app/agents/analytics_agent.py:221-238 | normalising twice is normalising once |
| AnalyticsAgent.ResolvePrecedence | app/agents/analytics_agent.py:96-152 | the cache answers exactly when it holds SQL; templates only on a cache miss; the model only when both missed; source names the tier |
| AnalyticsAgent.AiSqlIsOneStatement | app/agents/analytics_agent.py:163-186 | model-generated SQL is one line ending in ';' |
| AnalyticsAgent.UnsafeNeverExecuted | app/agents/analytics_agent.py:124-132 | SQL failing the gate gives the error, query and source result whatever the database holds |
| AnalyticsAgent.UnsafeAnswerOnlyForUnsafeSql | app/agents/analytics_agent.py:124-132 | the safety-error result appears exactly when the chosen SQL fails the gate, and carries that SQL and its source |
| AnalyticsAgent.ExplanationOnlyWithRows | app/agents/analytics_agent.py:138-153 | an explanation only when explain is set and there are rows; row_count is the number of rows; cost is "$0" exactly when the source is not the model |
| AnalyticsAgent.Executed | app/agents/analytics_agent.py:131-154 | SQL that passed the gate never gives the safety error; an answer carries that SQL and its source, row_count is the number of rows, an explanation only when asked and there are rows, cost "$0" exactly when the source is not the model |
| AnalyticsAgent.AnsweredSqlIsSafe | app/agents/analytics_agent.py:124-154 | an answered query passed the gate and is the resolved SQL |
| AnalyticsAgent.TouchThenStore | app/agents/analytics_agent.py:98-121 | storing after a read leaves the table as if only the store happened |
| AnalyticsAgent.AnalyticsAgent.constructor | app/agents/analytics_agent.py:19-64 | an empty 24-hour cache, the fixed template table and zeroed counters |
| AnalyticsAgent.AnalyticsAgent.IsSafeQuery | app/agents/analytics_agent.py:188-204 | the loop over the forbidden words decides exactly the gate predicate |
| AnalyticsAgent.AnalyticsAgent.FormatResults | app/agents/analytics_agent.py:221-238 | the loops compute NormalizeRows |
| AnalyticsAgent.AnalyticsAgent.ResolveSql | app/agents/analytics_agent.py:93-121 | picks SQL by cache, then the template matcher as written, then model; counts the question and the tier used; caches template and model SQL; gives the new iteration order of the cache |
| AnalyticsAgent.AnalyticsAgent.ResolveUncached | app/agents/analytics_agent.py:104-121 | on a cache miss: the template from the matcher as written, else the model; the counter of the tier used rises by one; SQL found is stored under the question at the current time, a new key going last in the iteration order; when nothing resolves the cache is unchanged |
| AnalyticsAgent.AnalyticsAgent.Execute | app/agents/analytics_agent.py:123-161 | the gate, execution, normalisation and optional explanation give AnswerFor |
| AnalyticsAgent.AnalyticsAgent.AnswerAnalyticsQuestion | app/agents/analytics_agent.py:81-161 | the whole call: resolution with the matcher as written, answer, counter updates, cache writes and the cache's new iteration order; at most one tier counter rises |
| AnalyticsAgent.AnalyticsAgent.GetStats | app/agents/analytics_agent.py:260-273 | the counters, whose tier counts sum to at most total_queries; cache statistics only once a question was asked, and then the current table's entry count, hit sum and top min(5, entries) of the sort by hits |
| AnalyticsAgent.AnalyticsAgent.GetExampleQuestions | app/agents/analytics_agent.py:275-287 | nine questions, the fifth the heart-rate one |
| AnalyticsAgent.UnsafeAiSqlIsReplayed | app/agents/analytics_agent.py:112-129 | unsafe model SQL is cached, so asking again within a day fails the same way with source "cache" |
| AnalyticsAgent.FieldPlaceholderResolved | app/agents/analytics_agent.py:104-131 | an average-vital question that reaches the template tier resolves to the stored SQL with `{field}` still in it, from source "template" |
| BaseAgent.ResultText | app/agents/base_agent.py:113-127 | the text of the first present attribute among data, output, content, message and text, else the object's own text |
| BaseAgent.RunFromFirstSuccess | app/agents/base_agent.py:96-136 | success exactly when some configured provider answers; then the answer is the first such provider's; otherwise the fixed "All AI providers failed" error |
| BaseAgent.InvokedOnlyConfigured | app/agents/base_agent.py:98-131 | every invoked provider is configured; all but the last invoked raised; the call succeeds exactly when the last one answered; no more providers are invoked than listed |
| BaseAgent.FirstAnswerIsFirst | app/agents/base_agent.py:98-131 | no provider before the first answering one answers, and that one does |
| BaseAgent.InvokedExactly | app/agents/base_agent.py:98-131 | the invoked providers are exactly the configured ones in list order up to and including the first that answers (all configured ones when none answers) |
| BaseAgent.FallbackAgent.constructor | app/agents/base_agent.py:22-89 | slots xai, openai, anthropic, each holding an agent exactly when its key is set and setup succeeds |
| BaseAgent.FallbackAgent.RunAsync | app/agents/base_agent.py:91-136 | the loop returns RunFrom over the order xai, openai, anthropic, with the providers it invoked |
| BaseAgent.FallbackAgent.RunProviders | app/agents/base_agent.py:98-131 | the loop over any provider order returns RunFrom and invokes exactly the providers InvokedFrom names |
| BaseAgent.FallbackAgent.GetAvailableProviders | app/agents/base_agent.py:145-151 | the configured slots, in setup order |
| BaseAgent.FallbackAgent.GetStatus | app/agents/base_agent.py:153-155 | every slot paired with whether it holds an agent |
| BaseAgent.ConfiguredIffStatus | app/agents/base_agent.py:145-155 | a name is listed as available exactly when its status is true |
| BaseAgent.NoneConfiguredFails | app/agents/base_agent.py:98-136 | with no provider configured, nothing is invoked and the fixed error is raised |
| GraphState.FiveDistinctIntents | app/graph/state.py:16-28 | five distinct intents, and the valid set is exactly them |
| GraphState.Initial | app/graph/state.py:31-61 | a fresh state carries the question and history, with no intent and no error |
| GraphState.Apply | app/graph/state.py:57-58 | merging an update overwrites the keys it sets and appends its messages to the history |
| GraphState.ApplyNoUpdate | app/graph/state.py:31-61 | an empty update changes nothing |
| GraphState.HistoryAppended | app/graph/state.py:57-58 | after any updates, the old history is a prefix followed by their messages in order |
| GraphNodes.LastFive | app/graph/nodes.py:66 | the last min(5, n) messages |
| GraphNodes.ExtractIntent | app/graph/nodes.py:58-94 | without error the intent is a valid one; otherwise only the error is set, starting "Intent extraction failed: " |
| GraphNodes.IntentFromReply | app/graph/nodes.py:72-94 | a classifier reply gives a valid intent and no error, or only an error starting "Intent extraction failed: "; no messages, ids, results or response |
| GraphNodes.ExtractIntentSeesLastFive | app/graph/nodes.py:66-69 | the result depends only on the question and the last five messages |
| GraphNodes.IntentCoercion | app/graph/nodes.py:72-91 | unparseable JSON gives chitchat with empty filters; a missing or unknown intent becomes chitchat; a valid one is kept |
| GraphNodes.FirstMatching | app/graph/nodes.py:118-128 | the first patient in scan order whose name matches, or none matches |
| GraphNodes.ResolveEntities | app/graph/nodes.py:97-139 | nothing when an error is set; otherwise exactly one of resolved_ids and error, the error arising exactly when there is an entity and the patients query fails, as "Entity resolution failed: " and its text |
| GraphNodes.ResolvesFirstMatch | app/graph/nodes.py:103-135 | no entity gives empty ids without reading the table; when the table can be read, the id is the first patient whose first or last name contains the entity ignoring case, no match gives empty ids, and there is no error |
| GraphNodes.SortNewestFirstCorrect | app/graph/nodes.py:182 | ordering by date descending is newest-first and a permutation |
| GraphNodes.InsertByDateMultiset | app/graph/nodes.py:182 | inserting a visit adds exactly that visit |
| GraphNodes.InsertByDateSorted | app/graph/nodes.py:182 | inserting into a newest-first list keeps it newest-first |
| GraphNodes.Select | app/graph/nodes.py:171-180 | exactly the visits passing the patient and date filters |
| GraphNodes.VisitRow | app/graph/nodes.py:189-195 | the row has exactly the keys id, date, chief_complaint, diagnosis, visit_type |
| GraphNodes.VisitRows | app/graph/nodes.py:182-198 | one row per returned visit, each with those keys |
| GraphNodes.QueryDatabase | app/graph/nodes.py:142-202 | nothing when an error is set; otherwise exactly one of results and error |
| GraphNodes.QueryDatabaseResults | app/graph/nodes.py:142-202 | an answered analytics question stores the agent's rows; a filter that cannot be built, or a failing visits query, stores only "Database query failed: " and the error; otherwise row i is the row of the i-th of at most 20 returned visits, each from the table and passing the filter |
| GraphNodes.AnalyticsFailureIsEmpty | app/graph/nodes.py:158-162 | a failed analytics answer gives an empty result list, not an error |
| GraphNodes.TopVisitsCorrect | app/graph/nodes.py:165-198 | at most 20 visits, newest first, each stored and passing the filters; fewer than 20 means all passing visits |
| GraphNodes.Replied | app/graph/nodes.py:215-258 | the reply and the user and assistant exchange, with the error as given |
| GraphNodes.GenerateResponse | app/graph/nodes.py:205-259 | always a reply and exactly the two history messages; a set error gives its apology without an error field |
| GraphNodes.Narrated | app/graph/nodes.py:238-259 | the narrator's reply, or the fixed apology with the failure recorded as the error |
| GraphNodes.ErrorSkipsNarrator | app/graph/nodes.py:212-221 | with an error set the narrator is never consulted |
| GraphNodes.NarratorFailure | app/graph/nodes.py:249-259 | a narrator failure gives the fixed apology and records the error |
| GraphPipeline.RouteIsAnEdge | app/graph/pipeline.py:33-92 | the router always returns a key of the conditional-edge map, naming its node |
| GraphPipeline.RouteCases | app/graph/pipeline.py:43-59 | an error goes to the response; otherwise chitchat to the response, analytics to the query, anything else to entity resolution |
| GraphPipeline.OtherIntentsResolveEntities | app/graph/pipeline.py:58-59 | search, detail, summarize, a missing intent and unknown names go to entity resolution |
| GraphPipeline.EdgesMoveForward | app/graph/pipeline.py:83-97 | every edge moves strictly forward along the pipeline |
| GraphPipeline.RunShape | app/graph/pipeline.py:72-99 | every run starts at extract_intent, visits at most four distinct nodes and ends at generate_response |
| GraphPipeline.RunFromShape | app/graph/pipeline.py:72-99 | from any node the run moves strictly forward, visits at most the nodes left, and ends at generate_response |
| GraphPipeline.TailPath | app/graph/pipeline.py:83-97 | after the router the path is fixed by the node reached |
| GraphPipeline.RunPath | app/graph/pipeline.py:33-99 | the path is fixed by the state after extraction: two, three or four nodes |
| GraphPipeline.RunPathFrom | app/graph/pipeline.py:33-99 | the path is two, three or four nodes according to the error and intent after extraction |
| GraphPipeline.ErrorSkipsToResponse | app/graph/pipeline.py:43-46 | after a failed extraction the final state is the response node applied to the extracted state |
| GraphPipeline.ExtractionErrorAnswered | app/graph/pipeline.py:43-46 | a failed extraction is answered with its apology, and the history gains exactly that exchange |
| GraphPipeline.PlainUrlUnchanged | app/graph/pipeline.py:102-114 | a URL not mentioning asyncpg is returned unchanged |
| GraphPipeline.AsyncUrlConverted | app/graph/pipeline.py:106-112 | "postgresql+asyncpg" followed by a rest free of asyncpg becomes "postgresql" with the same rest |
| Pagination.CeilDiv | app/utils/pagination.py:73 | the least integer not below the exact quotient, for either sign of divisor |
| Pagination.CreatePaginatedResponse | app/utils/pagination.py:54-85 | an error exactly for items with a zero page size; items, total, page and size echoed; has_next iff page below total_pages; has_previous iff page above 1 |
| Pagination.TotalPagesIsCeiling | app/utils/pagination.py:73 | total_pages is the least page count holding all items, equals (total + size - 1) div size, and is 0 with nothing to show |
| Pagination.PageBeyondRange | app/utils/pagination.py:73-74 | a page at or past the last has no next page |
| Pagination.AsQuery | app/utils/pagination.py:102-109 | page clamped to at least 1, page size clamped to 1..100, in-range values kept |
| Pagination.PagesTile | app/utils/pagination.py:111-119 | skip is never negative, page 1 starts at 0, and each page starts where the previous ended |
| Pagination.PageInRange | app/utils/pagination.py:73-114 | a clamped page is within total_pages exactly when its offset is inside the items |
| Age.CalculateAge | app/utils/__init__.py:9-20 | the age is never negative |
| Age.AgeIsCompletedYears | app/utils/__init__.py:14-18 | the age is the number of completed years: that anniversary is reached, the next is not |
| Age.BirthdayCounts | app/utils/__init__.py:17 | on the birthday the year counts |
| Age.DayBeforeBirthday | app/utils/__init__.py:17-18 | the day before the birthday it does not |
| Age.FutureBirthIsZero | app/utils/__init__.py:14-20 | a birth date after today gives 0 |
| StreamingUtils.FormatSse | app/utils/streaming_utils.py:13-28 | the message ends with a blank line; it starts with an event line exactly when the event is truthy; the data line is last |
| StreamingUtils.FormatThenParse | app/utils/streaming_utils.py:13-28 | reading a framed message gives back the event name and the JSON text |
| StreamingUtils.ChunkEvents | app/utils/streaming_utils.py:54-62 | one chunk message per chunk, numbered 1..n in order |
| StreamingUtils.ContentsOfChunkEvents | app/utils/streaming_utils.py:54-62 | the chunk messages carry the chunks back in order |
| StreamingUtils.EventAt | app/utils/streaming_utils.py:45-79 | position by position: the optional start, chunk i with id i + 1, then done with the count or the error |
| StreamingUtils.StartOnlyFirst | app/utils/streaming_utils.py:47-51 | a start message comes first exactly when metadata is wanted, and nowhere else |
| StreamingUtils.ChunksInOrder | app/utils/streaming_utils.py:53-62 | after the optional start, the chunks in order with ids from 1 |
| StreamingUtils.TerminalLast | app/utils/streaming_utils.py:64-79 | exactly one terminal message, the last: done with the chunk count, or the error on failure |
| StreamingUtils.StreamCarriesContent | app/utils/streaming_utils.py:45-79 | the chunk messages carry exactly the content's chunks, in order |
| StreamingUtils.StreamResponse | app/utils/streaming_utils.py:31-79 | the loop frames each event's payload, in order |
| StreamingUtils.CollectStream | app/utils/streaming_utils.py:121-135 | the chunks concatenated in order, or the source's failure |
| StreamingUtils.StreamBuffer.constructor | app/utils/streaming_utils.py:144-146 | an empty buffer with the given threshold |
| StreamingUtils.StreamBuffer.Add | app/utils/streaming_utils.py:148-162 | appends; at the threshold returns the joined buffer and empties it, below it returns None; nothing is lost or reordered and the buffer stays below the threshold |
| StreamingUtils.StreamBuffer.Flush | app/utils/streaming_utils.py:164-173 | returns the joined buffer and leaves it empty; what was handed out grows by exactly it |
| FormattingService.BpClasses | app/services/formatting_service.py:30-38 | each blood-pressure class characterised on its own: Normal, Elevated, Stage 1 (note the or) and Stage 2 |
| FormattingService.HighSystolicLowDiastolic | app/services/formatting_service.py:35-36 | 180 over 70 is Stage 1 |
| FormattingService.BpStatusOfNumbers | app/services/formatting_service.py:30-65 | on numbers the short-circuit evaluation is the plain classification |
| FormattingService.HeartRateStatus | app/services/formatting_service.py:40-46 | Normal iff 60..100, Low iff below 60, High iff above 100 |
| FormattingService.TempStatus | app/services/formatting_service.py:48-54 | Normal iff 97.0..99.0, Low iff below, High iff above |
| FormattingService.RespiratoryStatus | app/services/formatting_service.py:80 | Normal iff 12..20, otherwise Abnormal |
| FormattingService.OxygenStatus | app/services/formatting_service.py:86 | Normal iff at least 95, otherwise Low |
| FormattingService.Rendered | app/services/formatting_service.py:65-105 | one line per row |
| FormattingService.RowsOf | app/services/formatting_service.py:61-95 | a known measurement gives one row exactly when its value is truthy (both values for blood pressure), with its label, its displayed value (systolic/diastolic for blood pressure), its unit and the status its status function gives |
| FormattingService.KnownRows | app/services/formatting_service.py:61-95 | one row per present measurement, in the fixed order, row i being the row that measurement gives on its own |
| FormattingService.KnownRowsStep | app/services/formatting_service.py:61-95 | each further measurement adds its own rows after those before it, or makes the table fail |
| FormattingService.CustomFieldsExact | app/services/formatting_service.py:98-101 | the custom fields are exactly the entries outside the eight known keys |
| FormattingService.TitleCase | app/services/formatting_service.py:104 | title case letter by letter: upper at the start of a word, lower inside one |
| FormattingService.CustomRows | app/services/formatting_service.py:103-105 | one row per custom field |
| FormattingService.CustomRowsAt | app/services/formatting_service.py:103-105 | row i is the Recorded row of custom field i, labelled with its title-cased name and showing its value |
| FormattingService.VitalRowsLayout | app/services/formatting_service.py:56-107 | the known rows are the present measurements in the fixed order, before the custom rows |
| FormattingService.MarkdownOfDict | app/services/formatting_service.py:56-107 | a dict whose measurements all render gives the header, the known rows and then the custom rows |
| FormattingService.PresentVitalsIn | app/services/formatting_service.py:61-95 | a measurement is listed exactly when it is present |
| FormattingService.NoVitalsForFalsyInput | app/services/formatting_service.py:22-23 | falsy input gives "No vital signs data available." |
| FormattingService.FormatVitalSignsMarkdown | app/services/formatting_service.py:15-111 | the method builds exactly the specified table or message |
| FormattingService.KnownRowsText | app/services/formatting_service.py:61-95 | the loop over the fixed order gives the rendered known rows, or fails when they fail |
| FormattingService.CustomRowsText | app/services/formatting_service.py:103-105 | the loop gives the rendered custom rows |
| FormattingService.KnownRowsPrefixFails | app/services/formatting_service.py:109-111 | once one measurement raises, the whole table does |
| FormattingService.LabStatusCases | app/services/formatting_service.py:165-177 | each of normal, high, low and pending matches whatever its case and gets its label; any other status is shown at its own length with its first letter upper-cased and every later letter lower-cased |
| FormattingService.LabRows | app/services/formatting_service.py:160-179 | for any row renderer: when the rows exist there is one per entry, each that entry's rendering, in order |
| FormattingService.LabRowsFailure | app/services/formatting_service.py:160-185 | the table fails exactly when some entry cannot be rendered |
| FormattingService.AllRendered | app/services/formatting_service.py:160-179 | when every entry renders, the rows exist |
| FormattingService.LabRowsSnoc | app/services/formatting_service.py:160-179 | one more rendered entry appends its row to the rows so far |
| FormattingService.ListTabulated | app/services/formatting_service.py:121-158 | a non-empty list goes straight to the table of its entries |
| FormattingService.SingleDictIsOneEntry | app/services/formatting_service.py:134-136 | a single dict is tabulated as a one-entry list |
| FormattingService.NoLabsForEmpty | app/services/formatting_service.py:121-147 | empty input, or text parsing to an empty list, gives "No lab results available." |
| FormattingService.OneRowPerEntry | app/services/formatting_service.py:155-181 | a list whose entries all render gives the header and then one row per entry |
| FormattingService.FormatLabResultsMarkdown | app/services/formatting_service.py:114-185 | the method builds exactly the specified table or message |
| FormattingService.LabTableText | app/services/formatting_service.py:155-181 | the loop gives the header followed by the rows, or fails when some entry fails |
| UserModel.ParseRole | app/models/user.py:14-19 | a parsed role has the given value |
| UserModel.RoleValuesRoundTrip | app/models/user.py:14-19 | every role parses back from its value, so the four values are distinct |
| UserModel.ValidatePassword | app/models/user.py:83-95 | accepted iff there is a digit, an upper-case and a lower-case letter; returned unchanged; the first failing check, in that order, gives the message |
| UserModel.ValidPasswordExtends | app/models/user.py:83-95 | adding characters on either side keeps a valid password valid |
| UserModel.LettersOnlyFailOnDigit | app/models/user.py:87-88 | a password of letters only fails on the digit rule |
| UserModel.UserCreateErrors | app/models/user.py:71-95 | no error iff username is 3..50, the e-mail is valid, full_name is at most 100, and the password is 8..100 and meets the rule |
| UserModel.PasswordLengthFirst | app/models/user.py:81-85 | a password of the wrong length is reported for its length, never its content |
| UserModel.UserUpdateErrors | app/models/user.py:98-101 | no error iff a given e-mail is valid and a given full_name is 1..100 |
| UserModel.EmptyFullNameOnlyOnCreate | app/models/user.py:75-101 | an empty full name passes on create and fails on update |
| Config.Split | app/config.py:40 | one piece more than there are separators, none holding the separator |
| Config.SplitJoin | app/config.py:40 | joining the pieces with the separator gives the text back |
| Config.StripEach | app/config.py:40 | one stripped piece per piece, in order |
| Config.AssembleCorsOrigins | app/config.py:36-43 | an error exactly for values that are neither text nor list, carrying the value's text; a list, or text starting with "[", unchanged |
| Config.CommaSeparatedOrigins | app/config.py:39-40 | other text gives one origin per comma plus one, each a stripped piece |
| Config.TextOrigins | app/config.py:36-43 | text not starting with "[" gives its stripped comma pieces |
| Config.TwoOrigins | app/config.py:39-40 | "a, b" gives [a, b] |
| RotateCredentials.FirstMatch | scripts/rotate_credentials.py:76-82 | the first update, in order, whose "KEY=" starts the stripped line |
| RotateCredentials.UpdateEnvFile | scripts/rotate_credentials.py:44-97 | a missing file gives False and writes nothing; otherwise True and the specified lines |
| RotateCredentials.MatchLine | scripts/rotate_credentials.py:76-82 | the inner loop finds the first matching key exactly when one exists |
| RotateCredentials.LineMatch | scripts/rotate_credentials.py:71-82 | a line that is rewritten names one of the updates |
| RotateCredentials.RewriteOne | scripts/rotate_credentials.py:68-85 | one line: its rewrite, and its key exactly when it was rewritten |
| RotateCredentials.Rewritten | scripts/rotate_credentials.py:67-85 | one output line per input line |
| RotateCredentials.RewrittenAt | scripts/rotate_credentials.py:67-85 | output line i is the rewrite of input line i |
| RotateCredentials.RewriteLines | scripts/rotate_credentials.py:67-85 | the loop gives the rewritten lines and exactly the keys of the lines rewritten |
| RotateCredentials.MatchedKeyLine | scripts/rotate_credentials.py:67-85 | a key counts as written only when some line was rewritten for it |
| RotateCredentials.AppendMissing | scripts/rotate_credentials.py:88-91 | the loop appends the assignments of the keys not written, in update order |
| RotateCredentials.MissingHas | scripts/rotate_credentials.py:88-91 | every update whose key was not written is appended |
| RotateCredentials.LineByLine | scripts/rotate_credentials.py:67-85 | each input line is copied (blank, comment or unmatched) or becomes "KEY=value" for its first matching key, in place |
| RotateCredentials.AppendedIsFilter | scripts/rotate_credentials.py:88-91 | the appended lines are the unmatched updates, in order, once each |
| RotateCredentials.LineCount | scripts/rotate_credentials.py:64-91 | the list handed to `writelines` holds as many strings as lines read plus the unmatched keys |
| RotateCredentials.EveryKeyWritten | scripts/rotate_credentials.py:67-91 | every key has its "KEY=value" string in the list handed to `writelines` |
| RotateCredentials.KeyOnItsOwnLine | scripts/rotate_credentials.py:67-95 | in the written file of a file that ends with a line feed, every key's assignment starts a line |
| RotateCredentials.FileLineCount | scripts/rotate_credentials.py:64-95 | the written file of a file that ends with a line feed has one line per line read plus one per unmatched key, and ends with a line feed |
| RotateCredentials.GluedOntoLastLine | scripts/rotate_credentials.py:88-95 | when the last line read has no line feed and matches no key, the appended assignment is joined onto it |
| RotateCredentials.EndLastLine | scripts/rotate_credentials.py:60-61 | one line per line read |
| RotateCredentials.EndLastLineEnds | scripts/rotate_credentials.py:60-61 | ending the last line gives lines that all end with a line feed, the others unchanged |
| RotateCredentials.KeyOnItsOwnLineEnded | scripts/rotate_credentials.py:88-95 | with the last line ended first, every key's assignment starts a line of the written file, for any file read |
| RotateCredentials.EndedOnItsOwnLine | scripts/rotate_credentials.py:88-95 | with the last line ended first, the appended assignment follows a line feed |
| RotateCredentials.LongerKeyKept | scripts/rotate_credentials.py:78 | a line for a longer key such as SECRET_KEY_OLD is not rewritten for SECRET_KEY |

## Left out

- Regular expressions are a parameter (`Search`). Which of the nine questions of `get_example_questions` reach a template is therefore not proved.
- Pattern texts are kept as strings only for counting and listing.
- `_get_cache_key`'s MD5 digest is taken to be injective: the table is keyed by the normalised question.
- The clock (`datetime.now`, `date.today`, the event loop's time) is a parameter, in seconds or as a date.
- The formatted percentages and the cost-saved figure of both `get_stats` are left out, and so is the SSE start timestamp's float.
- Language-model calls are parameters: `agent.run`, the classifier, the narrator, `_generate_sql_with_ai` and `_explain_results`.
- Agent construction (pydantic_ai, GrokProvider) is reduced to "key set and setup succeeded".
- AnalyticsAgent.AnalyticsAgent.constructor: the SQL-generation agent is a parameter, so the schema system prompt it is built with is not modelled.
- `run_sync` is not modelled.
- `json.loads`, `json.dumps`, Python's `str()` of floats, lists and dicts, and e-mail syntax are parameters.
- JSON objects are field sequences, and a lookup takes the first field with the key.
- Case mapping, whitespace, `isdigit`/`isupper`/`islower`, `title` and `capitalize` are modelled on ASCII only.
- SQL execution is a parameter: the analytics agent's database returns rows or a failure, and the pipeline nodes read the patients and visits tables as a table or the error the query raises. Which of a date-conversion error and a visits-query error the driver reports first is not modelled; the model reports the conversion error.
- `ILIKE` is modelled as an ASCII-case-insensitive substring test. Its `%` and `_` wildcards inside the entity are not modelled.
- The date-filter conversion is a parameter.
- Ties in `ORDER BY visit_date DESC` are broken by scan order.
- The LangGraph runtime is not modelled: the checkpointer, the connection pool, `compile`, and streaming of the compiled graph. The graph is run by a recursive function over the declared edges.
- Async generators are a finite chunk list plus an optional failure.
- Concurrency is not modelled.
- StreamingUtils.StreamBuffer: `buffer` is a public attribute in the source; the model does not cover callers that change it from outside.
- `StreamBuffer.Add` and `Flush` keep ghost fields (`added`, `delivered`), so their contracts are read rather than counted.
- `format_vital_signs_markdown`'s seven known-measurement blocks are modelled as one loop over a fixed table of measurements. The rows are the same, in the same order.
- Stored vitals and labs arrive as JSON values. A JSON string stands for text still to be parsed; any other value is taken as already parsed.
- The logging calls are left out.
- Config.AssembleCorsOrigins: text starting with "[" is returned unchanged as the source does. The pydantic list validation that follows it is not part of this model.
- RotateCredentials.EveryKeyWritten, RotateCredentials.LineCount: these speak of the list handed to `writelines`, not of the file. Their file-level forms, `KeyOnItsOwnLine` and `FileLineCount`, need a file that ends with a line feed; `FileLineCount` also needs keys and values without line feeds.
- `update_env_file`: key generation, backups and the printed next-step advice in `scripts/rotate_credentials.py` are not modelled. File reading and writing are a parameter and a result.
- UserModel.UserCreateErrors: pydantic's error order and messages beyond the password rule are not modelled. The e-mail check is a parameter.
- AnalyticsAgent.Normalize: Python floats are modelled as exact reals. `float()` of an int above 2^53 rounds in the source, and of a very large int raises OverflowError; `float()` of a Decimal rounds. The model keeps the exact value and never fails.
- FormattingService.HeartRateStatus, TempStatus, RespiratoryStatus, OxygenStatus and BpStatus: readings are exact reals, so the NaN and Infinity that `json.loads` accepts are not representable. In the source a NaN heart rate fails every comparison and renders as High; the model has no such input.
- `Paginator.create_paginated_response` on huge totals: Python's float division inside `ceil` is modelled as exact integer ceiling.

## Findings

| source | as written | input that shows it | evidently intended | confidence | as-written member | corrected member |
|---|---|---|---|---|---|---|
| app/agents/query_templates.py:79-157 | parameters are bound only from captured groups, and the avg_vital_sign patterns have none (only non-capturing groups); the params dict stays empty and the SQL is returned with `{field}` unreplaced | "What's the average heart rate across all visits?" | bind `field` from `field_mapping` whenever a mapping key occurs in the question, giving `AVG(JSON_EXTRACT(vital_signs, '$.heart_rate')) as avg_heart_rate` | not executed | QueryTemplates.FieldLeftUnreplaced | QueryTemplates.FieldAlwaysReplaced |
| scripts/rotate_credentials.py:88-95 | the unmatched keys are appended after the lines read and `writelines` writes the strings back to back | lines `["DEBUG=true"]` (a file without a final line feed), updates `{"SECRET_KEY": "x"}`: the file becomes `DEBUG=trueSECRET_KEY=x` and the key is lost to a later reader | end the last line with a line feed before appending | not executed | RotateCredentials.GluedOntoLastLine | RotateCredentials.KeyOnItsOwnLineEnded |

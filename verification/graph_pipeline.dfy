/** The conversation pipeline: the router after intent extraction, the
    graph's fixed edges, one run of the graph from its entry point to END,
    and the database URL rewrite for the checkpointer's driver. */
module GraphPipeline {
  import opened Common
  import opened GraphState
  import GraphNodes

  datatype Node = ExtractIntent | ResolveEntities | QueryDatabase | GenerateResponse

  /** The name each node is registered under. */
  function NodeName(n: Node): string {
    match n
    case ExtractIntent => "extract_intent"
    case ResolveEntities => "resolve_entities"
    case QueryDatabase => "query_database"
    case GenerateResponse => "generate_response"
  }

  /** `route_by_intent(state)`: a set error goes straight to the response;
      chitchat skips entity resolution and the query, analytics skips
      entity resolution, and every other intent (search, detail,
      summarize, None or an unknown name) takes the full path. */
  function RouteByIntent(s: ConversationState): string {
    if HasError(s) then "generate_response"
    else if s.intent == Some(IntentChitchat) then "generate_response"
    else if s.intent == Some(IntentAnalytics) then "query_database"
    else "resolve_entities"
  }

  /** The conditional edges out of `extract_intent`: router key to node. */
  const ConditionalEdges: map<string, Node> := map[
    "resolve_entities" := ResolveEntities,
    "query_database" := QueryDatabase,
    "generate_response" := GenerateResponse]

  /** The router always answers with a key of the conditional-edge map, and
      the node it selects is the one registered under that key. */
  lemma RouteIsAnEdge(s: ConversationState)
    ensures RouteByIntent(s) in ConditionalEdges
    ensures NodeName(ConditionalEdges[RouteByIntent(s)]) == RouteByIntent(s)
  {
  }

  /** Routing by cases. */
  lemma RouteCases(s: ConversationState)
    ensures HasError(s) ==> RouteByIntent(s) == "generate_response"
    ensures !HasError(s) ==>
      (RouteByIntent(s) == "generate_response" <==> s.intent == Some(IntentChitchat)) &&
      (RouteByIntent(s) == "query_database" <==> s.intent == Some(IntentAnalytics)) &&
      (RouteByIntent(s) == "resolve_entities" <==> s.intent != Some(IntentChitchat) && s.intent != Some(IntentAnalytics))
  {
  }

  /** The search, detail and summarize intents, a missing intent and any
      unknown name all take the full path. */
  lemma OtherIntentsResolveEntities(s: ConversationState)
    requires !HasError(s)
    requires s.intent.None? || s.intent.value !in {IntentChitchat, IntentAnalytics}
    ensures RouteByIntent(s) == "resolve_entities"
  {
  }

  /** Where control goes after a node, given the state after it ran; None
      is END. */
  function Successor(n: Node, s: ConversationState): Option<Node> {
    match n
    case ExtractIntent => Some(ConditionalEdges[RouteByIntent(s)])
    case ResolveEntities => Some(QueryDatabase)
    case QueryDatabase => Some(GenerateResponse)
    case GenerateResponse => None
  }

  /** Position along the pipeline; every edge moves strictly forward, so the
      graph has no cycle. */
  function Rank(n: Node): nat {
    match n
    case ExtractIntent => 0
    case ResolveEntities => 1
    case QueryDatabase => 2
    case GenerateResponse => 3
  }

  lemma EdgesMoveForward(n: Node, s: ConversationState)
    ensures Successor(n, s).Some? ==> Rank(Successor(n, s).value) > Rank(n)
  {
    if n == ExtractIntent {
      RouteIsAnEdge(s);
    }
  }

  /** The update a node returns on a state. */
  function Perform(n: Node, s: ConversationState, env: GraphNodes.Services): Update {
    match n
    case ExtractIntent => GraphNodes.ExtractIntent(s, env)
    case ResolveEntities => GraphNodes.ResolveEntities(s, env)
    case QueryDatabase => GraphNodes.QueryDatabase(s, env)
    case GenerateResponse => GraphNodes.GenerateResponse(s, env)
  }

  /** What the nodes do: the update each returns on a state. */
  type Step = (Node, ConversationState) -> Update

  /** The compiled graph's nodes in a given environment. */
  function Nodes(env: GraphNodes.Services): Step {
    (n, s) => Perform(n, s, env)
  }

  /** Runs the graph from node n until END: the final state and the nodes
      visited, in order. */
  function RunFrom(n: Node, s: ConversationState, step: Step): (r: (ConversationState, seq<Node>))
    decreases 4 - Rank(n)
  {
    var after := Apply(s, step(n, s));
    EdgesMoveForward(n, after);
    match Successor(n, after)
    case None => (after, [n])
    case Some(next) =>
      var rest := RunFrom(next, after, step);
      (rest.0, [n] + rest.1)
  }

  /** One run of the compiled graph, from the entry point. */
  function Run(s: ConversationState, env: GraphNodes.Services): (ConversationState, seq<Node>) {
    RunFrom(ExtractIntent, s, Nodes(env))
  }

  /** Every run from a node moves forward through the pipeline and stops
      right after `generate_response`, whatever the nodes compute. */
  lemma {:induction false} RunFromShape(n: Node, s: ConversationState, step: Step)
    ensures var path := RunFrom(n, s, step).1;
      path != [] && path[0] == n && path[|path| - 1] == GenerateResponse &&
      |path| <= 4 - Rank(n) &&
      forall i, j :: 0 <= i < j < |path| ==> Rank(path[i]) < Rank(path[j])
    decreases 4 - Rank(n)
  {
    var after := Apply(s, step(n, s));
    EdgesMoveForward(n, after);
    match Successor(n, after)
    case None =>
    case Some(next) =>
      RunFromShape(next, after, step);
      var rest := RunFrom(next, after, step).1;
      assert RunFrom(n, s, step).1 == [n] + rest;
      RanksRiseCons(n, rest);
  }

  /** Ranks that rise along a path still rise with a lower-ranked node in
      front. */
  lemma RanksRiseCons(n: Node, rest: seq<Node>)
    requires rest != [] && Rank(n) < Rank(rest[0])
    requires forall i, j :: 0 <= i < j < |rest| ==> Rank(rest[i]) < Rank(rest[j])
    ensures forall i, j :: 0 <= i < j < |[n] + rest| ==> Rank(([n] + rest)[i]) < Rank(([n] + rest)[j])
  {
    var path := [n] + rest;
    forall i, j | 0 <= i < j < |path| ensures Rank(path[i]) < Rank(path[j]) {
      if i == 0 {
        assert path[j] == rest[j - 1];
        if j > 1 {
          assert Rank(rest[0]) < Rank(rest[j - 1]);
        }
      } else {
        assert path[i] == rest[i - 1] && path[j] == rest[j - 1];
      }
    }
  }

  /** Every run starts at `extract_intent`, visits each node at most once
      (so at most four), and ends with `generate_response`. */
  lemma RunShape(s: ConversationState, env: GraphNodes.Services)
    ensures var path := Run(s, env).1;
      path[0] == ExtractIntent && path[|path| - 1] == GenerateResponse && |path| <= 4 &&
      forall i, j :: 0 <= i < j < |path| ==> path[i] != path[j]
  {
    RunFromShape(ExtractIntent, s, Nodes(env));
  }

  /** The path a run takes is decided by the state after intent extraction:
      a set error or chitchat answers directly, analytics skips entity
      resolution, anything else takes all four steps. */
  lemma RunPath(s: ConversationState, env: GraphNodes.Services)
    ensures var extracted := Apply(s, GraphNodes.ExtractIntent(s, env));
      var path := Run(s, env).1;
      path == (if HasError(extracted) || extracted.intent == Some(IntentChitchat) then [ExtractIntent, GenerateResponse]
               else if extracted.intent == Some(IntentAnalytics) then [ExtractIntent, QueryDatabase, GenerateResponse]
               else [ExtractIntent, ResolveEntities, QueryDatabase, GenerateResponse])
  {
    var step := Nodes(env);
    assert step(ExtractIntent, s) == GraphNodes.ExtractIntent(s, env);
    RunPathFrom(s, step);
  }

  lemma RunPathFrom(s: ConversationState, step: Step)
    ensures var extracted := Apply(s, step(ExtractIntent, s));
      var path := RunFrom(ExtractIntent, s, step).1;
      path == (if HasError(extracted) || extracted.intent == Some(IntentChitchat) then [ExtractIntent, GenerateResponse]
               else if extracted.intent == Some(IntentAnalytics) then [ExtractIntent, QueryDatabase, GenerateResponse]
               else [ExtractIntent, ResolveEntities, QueryDatabase, GenerateResponse])
  {
    var extracted := Apply(s, step(ExtractIntent, s));
    var route := RouteByIntent(extracted);
    assert Successor(ExtractIntent, extracted) == Some(ConditionalEdges[route]);
    var next := ConditionalEdges[route];
    assert RunFrom(ExtractIntent, s, step).1 == [ExtractIntent] + RunFrom(next, extracted, step).1;
    TailPath(next, extracted, step);
  }

  /** From each node after the router the path is fixed. */
  lemma TailPath(n: Node, s: ConversationState, step: Step)
    requires n != ExtractIntent
    decreases 4 - Rank(n)
    ensures RunFrom(n, s, step).1 == match n
      case GenerateResponse => [GenerateResponse]
      case QueryDatabase => [QueryDatabase, GenerateResponse]
      case _ => [ResolveEntities, QueryDatabase, GenerateResponse]
  {
    var after := Apply(s, step(n, s));
    if n != GenerateResponse {
      TailPath(Successor(n, after).value, after, step);
    }
  }

  /** When intent extraction fails, the run answers with the apology for
      that error, and the history gains exactly the user's question and that
      reply. */
  lemma ExtractionErrorAnswered(s: ConversationState, env: GraphNodes.Services, e: string)
    requires GraphNodes.ExtractIntent(s, env).error == Some(e)
    ensures var final := Run(s, env).0;
      final.response == GraphNodes.ErrorResponse(e) &&
      final.messages == s.messages + GraphNodes.Exchange(s.query, GraphNodes.ErrorResponse(e))
  {
    var u := GraphNodes.ExtractIntent(s, env);
    var extracted := Apply(s, u);
    assert StartsWith(e, "Intent extraction failed: ");
    assert HasError(extracted);
    assert extracted.messages == s.messages + [];
    var step := Nodes(env);
    assert step(ExtractIntent, s) == u;
    ErrorSkipsToResponse(s, step);
    assert step(GenerateResponse, extracted) == GraphNodes.GenerateResponse(extracted, env);
  }

  lemma ErrorSkipsToResponse(s: ConversationState, step: Step)
    requires HasError(Apply(s, step(ExtractIntent, s)))
    ensures var extracted := Apply(s, step(ExtractIntent, s));
      RunFrom(ExtractIntent, s, step).0 == Apply(extracted, step(GenerateResponse, extracted))
  {
  }

  // ---------------------------------------------------------------------
  // `_get_db_url`

  const AsyncScheme: string := "postgresql+asyncpg"
  const PlainScheme: string := "postgresql"

  /** `_get_db_url()` on the configured URL: the SQLAlchemy async-driver
      scheme becomes the plain one, then any leftover "+asyncpg" is
      dropped. */
  function GetDbUrl(url: string): string {
    var u1 := if Contains(url, "asyncpg") then ReplaceAll(url, AsyncScheme, PlainScheme) else url;
    if Contains(u1, "+asyncpg") then ReplaceAll(u1, "+asyncpg", "") else u1
  }

  /** A URL that does not mention asyncpg is returned unchanged. */
  lemma PlainUrlUnchanged(url: string)
    requires !Contains(url, "asyncpg")
    ensures GetDbUrl(url) == url
  {
    if Contains(url, "+asyncpg") {
      var i := ContainsWitness(url, "+asyncpg");
      assert url[i + 1..i + 1 + |"asyncpg"|] == "asyncpg";
      ContainsAt(url, "asyncpg", i + 1);
    }
  }

  /** "postgresql+asyncpg://rest" becomes "postgresql://rest" when the rest
      does not mention asyncpg. */
  lemma AsyncUrlConverted(rest: string)
    requires !Contains(rest, "asyncpg")
    ensures GetDbUrl(AsyncScheme + rest) == PlainScheme + rest
  {
    var url := AsyncScheme + rest;
    assert url[11..11 + 7] == "asyncpg";
    ContainsAt(url, "asyncpg", 11);
    assert StartsWith(url, AsyncScheme);
    assert url[|AsyncScheme|..] == rest;
    NoAsyncScheme(rest);
    ReplaceAllAbsent(rest, AsyncScheme, PlainScheme);
    assert ReplaceAll(url, AsyncScheme, PlainScheme) == PlainScheme + rest;
    assert '+' !in PlainScheme;
    NoPlusAsync(PlainScheme, rest);
  }

  lemma NoAsyncScheme(rest: string)
    requires !Contains(rest, "asyncpg")
    ensures !Contains(rest, AsyncScheme)
  {
    if Contains(rest, AsyncScheme) {
      var i := ContainsWitness(rest, AsyncScheme);
      assert rest[i + 11..i + 18] == "asyncpg";
      ContainsAt(rest, "asyncpg", i + 11);
    }
  }

  /** Text without '+' followed by text without "asyncpg" holds no
      "+asyncpg". */
  lemma {:induction false} NoPlusAsync(pre: string, rest: string)
    requires '+' !in pre && !Contains(rest, "asyncpg")
    ensures !Contains(pre + rest, "+asyncpg")
  {
    if pre == [] {
      assert pre + rest == rest;
      if Contains(rest, "+asyncpg") {
        var i := ContainsWitness(rest, "+asyncpg");
        assert rest[i + 1..i + 8] == "asyncpg";
        ContainsAt(rest, "asyncpg", i + 1);
      }
    } else {
      assert (pre + rest)[0] == pre[0] != '+';
      assert (pre + rest)[1..] == pre[1..] + rest;
      NoPlusAsync(pre[1..], rest);
    }
  }
}

/** The state that flows between the conversation pipeline's nodes: the
    intent names, the state record, and the partial updates nodes return,
    merged into the state the way the graph runtime does (every key a
    node returns overwrites the state's, except the message history,
    which is appended to). */
module GraphState {
  import opened Common

  const IntentSearch: string := "search"
  const IntentDetail: string := "detail"
  const IntentSummarize: string := "summarize"
  const IntentAnalytics: string := "analytics"
  const IntentChitchat: string := "chitchat"

  const ValidIntents: set<string> := {IntentSearch, IntentDetail, IntentSummarize, IntentAnalytics, IntentChitchat}

  /** There are five intents, all different, and they are exactly the
      valid ones. */
  lemma FiveDistinctIntents()
    ensures |ValidIntents| == 5
    ensures IntentSearch in ValidIntents && IntentDetail in ValidIntents && IntentSummarize in ValidIntents &&
            IntentAnalytics in ValidIntents && IntentChitchat in ValidIntents
  {
    var s := {IntentSearch, IntentDetail, IntentSummarize, IntentAnalytics};
    assert IntentChitchat !in s by {
      assert IntentChitchat[0] == 'c';
      assert IntentSearch[0] == 's' && IntentSummarize[0] == 's' && IntentDetail[0] == 'd' && IntentAnalytics[0] == 'a';
    }
    var t := {IntentSearch, IntentDetail, IntentSummarize};
    assert IntentAnalytics !in t by {
      assert IntentAnalytics[0] == 'a';
    }
    var u := {IntentSearch, IntentDetail};
    assert IntentSummarize !in u by {
      assert IntentSummarize[1] == 'u' && IntentSearch[1] == 'e';
    }
    assert IntentSearch != IntentDetail by {
      assert IntentSearch[0] != IntentDetail[0];
    }
    assert |u| == 2;
    assert |t| == |u + {IntentSummarize}| == 3;
    assert |s| == |t + {IntentAnalytics}| == 4;
    assert ValidIntents == s + {IntentChitchat};
  }

  /** A chat message of the history: who spoke, and what was said. */
  datatype Message = Message(role: string, content: string)

  /** The conversation state. `intent` is a plain optional string, not an
      enumeration, so None and unknown names are representable; `filters`
      and `entityToResolve` hold what the classifier's JSON said (JNull for
      a missing entity); there is no database session in it. */
  datatype ConversationState = ConversationState(
    query: string,
    sessionId: string,
    intent: Option<string>,
    filters: Json,
    entityToResolve: Json,
    resolvedIds: seq<(string, int)>,
    results: seq<Row>,
    response: string,
    messages: seq<Message>,
    error: Option<string>)

  /** A fresh state for a question: nothing extracted or resolved yet. */
  function Initial(query: string, sessionId: string, history: seq<Message>): (s: ConversationState)
    ensures s.query == query && s.messages == history && !HasError(s) && s.intent == None
  {
    ConversationState(query, sessionId, None, JObj([]), JNull, [], [], "", history, None)
  }

  /** `state.get("error")` is truthy: an error text is set and not empty. */
  predicate HasError(s: ConversationState) {
    s.error.Some? && s.error.value != ""
  }

  /** The dict a node returns: each key it sets, plus messages to add to
      the history. */
  datatype Update = Update(
    intent: Option<Option<string>>,
    filters: Option<Json>,
    entityToResolve: Option<Json>,
    resolvedIds: Option<seq<(string, int)>>,
    results: Option<seq<Row>>,
    response: Option<string>,
    messages: seq<Message>,
    error: Option<string>)

  /** `{}` */
  const NoUpdate: Update := Update(None, None, None, None, None, None, [], None)

  /** Merging a node's update into the state. */
  function Apply(s: ConversationState, u: Update): (r: ConversationState)
    ensures r.query == s.query && r.sessionId == s.sessionId
    ensures r.messages == s.messages + u.messages
    ensures r.intent == (if u.intent.Some? then u.intent.value else s.intent)
    ensures r.filters == (if u.filters.Some? then u.filters.value else s.filters)
    ensures r.entityToResolve == (if u.entityToResolve.Some? then u.entityToResolve.value else s.entityToResolve)
    ensures r.resolvedIds == (if u.resolvedIds.Some? then u.resolvedIds.value else s.resolvedIds)
    ensures r.results == (if u.results.Some? then u.results.value else s.results)
    ensures r.response == (if u.response.Some? then u.response.value else s.response)
    ensures r.error == (if u.error.Some? then u.error else s.error)
  {
    s.(intent := if u.intent.Some? then u.intent.value else s.intent,
       filters := if u.filters.Some? then u.filters.value else s.filters,
       entityToResolve := if u.entityToResolve.Some? then u.entityToResolve.value else s.entityToResolve,
       resolvedIds := if u.resolvedIds.Some? then u.resolvedIds.value else s.resolvedIds,
       results := if u.results.Some? then u.results.value else s.results,
       response := if u.response.Some? then u.response.value else s.response,
       messages := s.messages + u.messages,
       error := if u.error.Some? then u.error else s.error)
  }

  /** An empty update changes nothing. */
  lemma ApplyNoUpdate(s: ConversationState)
    ensures Apply(s, NoUpdate) == s
  {
    assert s.messages + [] == s.messages;
  }

  /** The updates merged one after another. */
  function ApplyAll(s: ConversationState, us: seq<Update>): (r: ConversationState)
    ensures r.query == s.query
    decreases |us|
  {
    if us == [] then s else ApplyAll(Apply(s, us[0]), us[1..])
  }

  /** The updates' messages, in order. */
  function AllMessages(us: seq<Update>): seq<Message> {
    if us == [] then [] else us[0].messages + AllMessages(us[1..])
  }

  /** History only grows: whatever updates are merged, the old history
      stays a prefix of the new one, followed by the updates' messages in
      order. */
  lemma {:induction false} HistoryAppended(s: ConversationState, us: seq<Update>)
    ensures ApplyAll(s, us).messages == s.messages + AllMessages(us)
    decreases |us|
  {
    if us != [] {
      HistoryAppended(Apply(s, us[0]), us[1..]);
      assert s.messages + us[0].messages + AllMessages(us[1..]) == s.messages + (us[0].messages + AllMessages(us[1..]));
    }
  }
}

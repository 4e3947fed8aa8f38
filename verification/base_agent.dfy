/** The provider-fallback agent: up to three language-model providers, set
    up from their API keys in the fixed order X.AI, OpenAI, Anthropic, tried
    in that order until one answers.

    A provider is an oracle from the user input to an outcome: it either
    raises (the exception's text is kept) or returns a run result, whose
    attributes are given already converted with `str`. */
module BaseAgent {
  import opened Common

  /** The result object `agent.run` returns: which of the attributes the
      code probes are present (each as its `str`), and `str(result)`. */
  datatype RunResult = RunResult(
    data: Option<string>,
    output: Option<string>,
    content: Option<string>,
    message: Option<string>,
    text: Option<string>,
    repr: string)

  datatype Outcome = Raised(error: string) | Returned(result: RunResult)

  /** `await agent.run(user_input)` */
  type Agent = string -> Outcome

  const ProviderOrder: seq<string> := ["xai", "openai", "anthropic"]

  const AllProvidersFailed: string := "All AI providers failed. Please check your API keys and try again."

  /** The answer text: `str` of the first attribute present among data,
      output, content, message, text, else `str(result)`. */
  function ResultText(r: RunResult): (s: string)
    ensures r.data.Some? ==> s == r.data.value
    ensures r.data.None? && r.output.Some? ==> s == r.output.value
    ensures r.data.None? && r.output.None? && r.content.Some? ==> s == r.content.value
    ensures r.data.None? && r.output.None? && r.content.None? && r.message.Some? ==> s == r.message.value
    ensures r.data.None? && r.output.None? && r.content.None? && r.message.None? ==>
      s == if r.text.Some? then r.text.value else r.repr
  {
    if r.data.Some? then r.data.value
    else if r.output.Some? then r.output.value
    else if r.content.Some? then r.content.value
    else if r.message.Some? then r.message.value
    else if r.text.Some? then r.text.value
    else r.repr
  }

  /** `self.agents.get(name)`: the slot's agent, None when not configured. */
  function Slot(agents: seq<(string, Option<Agent>)>, name: string): Option<Agent> {
    match Lookup(agents, name)
    case Some(a) => a
    case None => None
  }

  /** What the loop over `providers[i..]` returns: the text of the first
      configured provider that does not raise, else the fixed error. */
  function RunFrom(agents: seq<(string, Option<Agent>)>, providers: seq<string>, i: nat, input: string): Result<string>
    decreases |providers| - i
  {
    if i >= |providers| then Err(AllProvidersFailed)
    else match Slot(agents, providers[i])
      case None => RunFrom(agents, providers, i + 1, input)
      case Some(agent) =>
        match agent(input)
        case Returned(res) => Ok(ResultText(res))
        case Raised(_) => RunFrom(agents, providers, i + 1, input)
  }

  /** The providers the loop over `providers[i..]` invokes, in order. */
  function InvokedFrom(agents: seq<(string, Option<Agent>)>, providers: seq<string>, i: nat, input: string): seq<string>
    decreases |providers| - i
  {
    if i >= |providers| then []
    else match Slot(agents, providers[i])
      case None => InvokedFrom(agents, providers, i + 1, input)
      case Some(agent) =>
        match agent(input)
        case Returned(_) => [providers[i]]
        case Raised(_) => [providers[i]] + InvokedFrom(agents, providers, i + 1, input)
  }

  /** Provider k is configured and answers. */
  predicate Answers(agents: seq<(string, Option<Agent>)>, providers: seq<string>, k: nat, input: string)
    requires k < |providers|
  {
    Slot(agents, providers[k]).Some? && Slot(agents, providers[k]).value(input).Returned?
  }

  /** The loop succeeds exactly when some configured provider answers; its
      text is then the first such provider's, and every configured provider
      before it raised. Otherwise the error is the fixed message. */
  lemma {:induction false} RunFromFirstSuccess(agents: seq<(string, Option<Agent>)>, providers: seq<string>, i: nat, input: string)
    ensures RunFrom(agents, providers, i, input).Ok? <==> exists k :: i <= k < |providers| && Answers(agents, providers, k, input)
    ensures RunFrom(agents, providers, i, input).Err? ==> RunFrom(agents, providers, i, input).error == AllProvidersFailed
    ensures RunFrom(agents, providers, i, input).Ok? ==>
      exists k :: i <= k < |providers| && Answers(agents, providers, k, input) &&
        RunFrom(agents, providers, i, input).value == ResultText(Slot(agents, providers[k]).value(input).result) &&
        forall j :: i <= j < k ==> !Answers(agents, providers, j, input)
    decreases |providers| - i
  {
    if i < |providers| {
      RunFromFirstSuccess(agents, providers, i + 1, input);
      if Answers(agents, providers, i, input) {
        assert RunFrom(agents, providers, i, input) == Ok(ResultText(Slot(agents, providers[i]).value(input).result));
      } else {
        assert RunFrom(agents, providers, i, input) == RunFrom(agents, providers, i + 1, input);
        if RunFrom(agents, providers, i, input).Ok? {
          var k :| i + 1 <= k < |providers| && Answers(agents, providers, k, input) &&
            RunFrom(agents, providers, i + 1, input).value == ResultText(Slot(agents, providers[k]).value(input).result) &&
            forall j :: i + 1 <= j < k ==> !Answers(agents, providers, j, input);
          assert forall j :: i <= j < k ==> !Answers(agents, providers, j, input);
        }
      }
    }
  }

  /** Only configured providers are invoked, each at most once, in order;
      the last one invoked is the one that answered, if any did, and every
      one before it raised. */
  lemma {:induction false} InvokedOnlyConfigured(agents: seq<(string, Option<Agent>)>, providers: seq<string>, i: nat, input: string)
    requires i <= |providers|
    ensures forall p :: p in InvokedFrom(agents, providers, i, input) ==> Slot(agents, p).Some?
    ensures forall k :: 0 <= k < |InvokedFrom(agents, providers, i, input)| - 1 ==>
      Slot(agents, InvokedFrom(agents, providers, i, input)[k]).value(input).Raised?
    ensures RunFrom(agents, providers, i, input).Ok? <==>
      InvokedFrom(agents, providers, i, input) != [] &&
      var inv := InvokedFrom(agents, providers, i, input);
      Slot(agents, inv[|inv| - 1]).value(input).Returned?
    ensures |InvokedFrom(agents, providers, i, input)| <= |providers| - i
    decreases |providers| - i
  {
    if i < |providers| {
      InvokedOnlyConfigured(agents, providers, i + 1, input);
      var rest := InvokedFrom(agents, providers, i + 1, input);
      match Slot(agents, providers[i])
      case None =>
        assert InvokedFrom(agents, providers, i, input) == rest;
        assert RunFrom(agents, providers, i, input) == RunFrom(agents, providers, i + 1, input);
      case Some(agent) =>
        match agent(input)
        case Returned(_) =>
          assert InvokedFrom(agents, providers, i, input) == [providers[i]];
        case Raised(_) =>
          var inv := [providers[i]] + rest;
          assert InvokedFrom(agents, providers, i, input) == inv;
          assert RunFrom(agents, providers, i, input) == RunFrom(agents, providers, i + 1, input);
          assert forall k :: 1 <= k < |inv| ==> inv[k] == rest[k - 1];
          if rest != [] {
            assert inv[|inv| - 1] == rest[|rest| - 1];
          }
    }
  }

  /** The providers of `ps` whose slot holds an agent, in order. */
  function ConfiguredAmong(agents: seq<(string, Option<Agent>)>, ps: seq<string>): seq<string> {
    if ps == [] then []
    else (if Slot(agents, ps[0]).Some? then [ps[0]] else []) + ConfiguredAmong(agents, ps[1..])
  }

  /** The index of the first provider of `providers[i..]` that answers, or
      `|providers|` when none does. */
  function FirstAnswer(agents: seq<(string, Option<Agent>)>, providers: seq<string>, i: nat, input: string): (k: nat)
    requires i <= |providers|
    ensures i <= k <= |providers|
    decreases |providers| - i
  {
    if i == |providers| then |providers|
    else if Answers(agents, providers, i, input) then i
    else FirstAnswer(agents, providers, i + 1, input)
  }

  /** Every provider before the `FirstAnswer` index does not answer, and
      the one at that index, if any, does. */
  lemma {:induction false} FirstAnswerIsFirst(agents: seq<(string, Option<Agent>)>, providers: seq<string>, i: nat, input: string)
    requires i <= |providers|
    ensures forall j :: i <= j < FirstAnswer(agents, providers, i, input) ==> !Answers(agents, providers, j, input)
    ensures FirstAnswer(agents, providers, i, input) < |providers| ==>
      Answers(agents, providers, FirstAnswer(agents, providers, i, input), input)
    decreases |providers| - i
  {
    if i < |providers| && !Answers(agents, providers, i, input) {
      FirstAnswerIsFirst(agents, providers, i + 1, input);
    }
  }

  /** A provider that does not answer adds itself to the invoked list when
      it is configured (it raised) and nothing otherwise. */
  lemma InvokedPastSilent(agents: seq<(string, Option<Agent>)>, providers: seq<string>, i: nat, input: string)
    requires i < |providers| && !Answers(agents, providers, i, input)
    ensures InvokedFrom(agents, providers, i, input) ==
      (if Slot(agents, providers[i]).Some? then [providers[i]] else []) + InvokedFrom(agents, providers, i + 1, input)
  {
  }

  /** The loop invokes exactly the configured providers from `i` up to and
      including the first one that answers (all of them when none answers),
      in order. */
  lemma {:induction false} InvokedExactly(agents: seq<(string, Option<Agent>)>, providers: seq<string>, i: nat, input: string)
    requires i <= |providers|
    ensures var k := FirstAnswer(agents, providers, i, input);
      InvokedFrom(agents, providers, i, input) ==
        ConfiguredAmong(agents, providers[i..if k < |providers| then k + 1 else k])
    decreases |providers| - i
  {
    if i < |providers| {
      var k := FirstAnswer(agents, providers, i, input);
      var end := if k < |providers| then k + 1 else k;
      if Answers(agents, providers, i, input) {
        assert providers[i..end] == [providers[i]];
        assert ConfiguredAmong(agents, providers[i..end]) == [providers[i]] + ConfiguredAmong(agents, []);
      } else {
        InvokedExactly(agents, providers, i + 1, input);
        InvokedPastSilent(agents, providers, i, input);
        assert providers[i..end][0] == providers[i];
        assert providers[i..end][1..] == providers[i + 1..end];
      }
    }
  }

  // ---------------------------------------------------------------------
  // The agent object

  class FallbackAgent {
    /** `self.agents`: the slots "xai", "openai", "anthropic", in that
        order, each an agent or None. */
    const agents: seq<(string, Option<Agent>)>

    /** `_setup_agents`: a provider gets an agent when its API key is set
        (a non-empty string) and building the agent did not raise (`build`
        gives None for a provider whose construction raises). */
    constructor (xaiKey: Option<string>, openaiKey: Option<string>, anthropicKey: Option<string>,
                 build: string -> Option<Agent>)
      ensures agents == [
        ("xai", if xaiKey.Some? && xaiKey.value != "" then build("xai") else None),
        ("openai", if openaiKey.Some? && openaiKey.value != "" then build("openai") else None),
        ("anthropic", if anthropicKey.Some? && anthropicKey.value != "" then build("anthropic") else None)]
    {
      agents := [
        ("xai", if xaiKey.Some? && xaiKey.value != "" then build("xai") else None),
        ("openai", if openaiKey.Some? && openaiKey.value != "" then build("openai") else None),
        ("anthropic", if anthropicKey.Some? && anthropicKey.value != "" then build("anthropic") else None)];
    }

    /** `run_async(user_input)`: providers in the fixed order, skipping
        unconfigured ones; the first that does not raise gives the answer;
        when none does, the fixed error. `invoked` records, in order, the
        providers whose agent was called. */
    method RunAsync(input: string) returns (r: Result<string>, ghost invoked: seq<string>)
      ensures r == RunFrom(agents, ProviderOrder, 0, input)
      ensures invoked == InvokedFrom(agents, ProviderOrder, 0, input)
    {
      r, invoked := RunProviders(ProviderOrder, input);
    }

    /** The fallback loop over a given provider order. */
    method RunProviders(providers: seq<string>, input: string) returns (r: Result<string>, ghost invoked: seq<string>)
      ensures r == RunFrom(agents, providers, 0, input)
      ensures invoked == InvokedFrom(agents, providers, 0, input)
    {
      invoked := [];
      var i := 0;
      while i < |providers|
        invariant 0 <= i <= |providers|
        invariant RunFrom(agents, providers, 0, input) == RunFrom(agents, providers, i, input)
        invariant InvokedFrom(agents, providers, 0, input) == invoked + InvokedFrom(agents, providers, i, input)
      {
        var agent := Slot(agents, providers[i]);
        if agent.None? {
          i := i + 1;
          continue;
        }
        var outcome := agent.value(input);
        invoked := invoked + [providers[i]];
        match outcome {
          case Returned(res) =>
            return Ok(ResultText(res)), invoked;
          case Raised(_) =>
        }
        i := i + 1;
      }
      r := Err(AllProvidersFailed);
    }

    /** `get_available_providers`: the configured slots, in setup order. */
    method GetAvailableProviders() returns (available: seq<string>)
      ensures available == Configured(agents)
    {
      available := [];
      var i := 0;
      while i < |agents|
        invariant 0 <= i <= |agents|
        invariant available + Configured(agents[i..]) == Configured(agents)
      {
        assert agents[i..][1..] == agents[i + 1..];
        if agents[i].1.Some? {
          available := available + [agents[i].0];
        }
        i := i + 1;
      }
    }

    /** `get_status`: every slot with whether it holds an agent. */
    function GetStatus(): (status: seq<(string, bool)>)
      ensures |status| == |agents|
      ensures forall k :: 0 <= k < |status| ==> status[k].0 == agents[k].0 && (status[k].1 <==> agents[k].1.Some?)
    {
      seq(|agents|, k requires 0 <= k < |agents| => (agents[k].0, agents[k].1.Some?))
    }
  }

  /** The names of the slots that hold an agent, in order. */
  function Configured(agents: seq<(string, Option<Agent>)>): seq<string> {
    if agents == [] then []
    else (if agents[0].1.Some? then [agents[0].0] else []) + Configured(agents[1..])
  }

  /** A name is listed as available exactly when some slot of that name holds
      an agent: the true entries of `get_status` and the available list name
      the same providers. */
  lemma {:induction false} ConfiguredIffStatus(agents: seq<(string, Option<Agent>)>, name: string)
    ensures name in Configured(agents) <==> exists k :: 0 <= k < |agents| && agents[k].0 == name && agents[k].1.Some?
  {
    if agents != [] {
      ConfiguredIffStatus(agents[1..], name);
      if name in Configured(agents[1..]) {
        var k :| 0 <= k < |agents[1..]| && agents[1..][k].0 == name && agents[1..][k].1.Some?;
        assert agents[k + 1] == agents[1..][k];
      }
      if exists k :: 0 <= k < |agents| && agents[k].0 == name && agents[k].1.Some? {
        var k :| 0 <= k < |agents| && agents[k].0 == name && agents[k].1.Some?;
        if k > 0 {
          assert agents[1..][k - 1] == agents[k];
        }
      }
    }
  }

  /** With no provider configured, every call fails with the fixed message
      and no agent is called. */
  lemma NoneConfiguredFails(agents: seq<(string, Option<Agent>)>, input: string)
    requires forall k :: 0 <= k < |agents| ==> agents[k].1.None?
    ensures RunFrom(agents, ProviderOrder, 0, input) == Err(AllProvidersFailed)
    ensures InvokedFrom(agents, ProviderOrder, 0, input) == []
  {
    forall p ensures Slot(agents, p).None? {
      SlotOfUnconfigured(agents, p);
    }
    RunFromFirstSuccess(agents, ProviderOrder, 0, input);
    InvokedOnlyConfigured(agents, ProviderOrder, 0, input);
  }

  lemma {:induction false} SlotOfUnconfigured(agents: seq<(string, Option<Agent>)>, p: string)
    requires forall k :: 0 <= k < |agents| ==> agents[k].1.None?
    ensures Slot(agents, p).None?
  {
    if agents != [] && agents[0].0 != p {
      SlotOfUnconfigured(agents[1..], p);
    }
  }
}

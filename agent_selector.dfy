/** `agentSelector.js`: choosing the agent that handles a request. */
module AgentSelector {
  import opened Wrappers
  import opened Text
  import opened Catalog
  import opened AgentService
  import opened Chat

  /** The values of `SELECTOR_MODEL_ID`, `SELECTOR_BASE_URL` and `SELECTOR_API_KEY`. */
  datatype SelectorEnv = SelectorEnv(modelId: Option<string>, baseUrl: Option<string>, apiKey: Option<string>)

  /** The agent selector's upstream: unset or empty model id and base URL fall back to
      "gpt-4" and the OpenAI endpoint; the key has no fallback. */
  function AgentSelectorConfig(env: SelectorEnv): (cfg: SelectorConfig)
    ensures Truthy(cfg.modelId) && Truthy(cfg.baseUrl)
    ensures cfg.modelId == if Truthy(env.modelId) then env.modelId else Some("gpt-4")
    ensures cfg.baseUrl == if Truthy(env.baseUrl) then env.baseUrl else Some("https://api.openai.com/v1")
    ensures cfg.apiKey == env.apiKey
  {
    SelectorConfig(Or(env.modelId, Some("gpt-4")), Or(env.baseUrl, Some("https://api.openai.com/v1")), env.apiKey)
  }

  /** `AGENT_SELECTOR_PROMPT_TEMPLATE`: the text around its two placeholders. */
  const AgentHeader: string := "\n你是一个智能Agent选择器。根据用户的请求，选择最合适的Agent进行回答。\n以下是可用的Agent及其能力描述:\n\n"
  const AgentMiddle: string := "\n\n用户的请求是: \""
  const AgentFooter: string := "\"\n\n你的任务是选择一个最合适的Agent来处理这个请求。请只返回该Agent的agentId，无需解释。\n"
  const AgentTemplate: string := AgentHeader + "{{AGENT_DESCRIPTIONS}}" + AgentMiddle + "{{USER_REQUEST}}" + AgentFooter

  /** The block describing one agent; the model line is empty when the agent has no model. */
  function DescribeAgent(a: Agent): string
  {
    "agentId: " + a.key + "\n名称: " + a.data.name + "\n描述: " + a.data.description
    + "\n能力: " + a.data.capabilities + "\n"
    + (if Truthy(a.data.modelId) then "使用模型: " + a.data.modelId.value else "")
    + "\n---"
  }

  /** The template with the descriptions and then the user text put in, each by a
      first-occurrence `replace`. */
  function AgentPrompt(agents: seq<Agent>, userRequest: string): string
  {
    var descriptions := Join(seq(|agents|, i requires 0 <= i < |agents| => DescribeAgent(agents[i])), "\n");
    ReplaceFirst(ReplaceFirst(AgentTemplate, "{{AGENT_DESCRIPTIONS}}", descriptions), "{{USER_REQUEST}}", userRequest)
  }

  /** The chosen agent (`null` as `None`) and the classification call made, if any. */
  datatype AgentSelection = AgentSelection(agent: Option<Agent>, call: Option<SelectorCall>)

  /** The `catch` block: the default agent if that query answers one, else null. */
  function CatchPath(query: Fetch<Option<Agent>>): (r: Option<Agent>)
    ensures query.Fetched? ==> r == query.value
    ensures query.DbError? ==> r == None
  {
    if query.Fetched? then query.value else None
  }

  /** `selectAgent(userRequest)`. The inputs are what the awaited calls answer: `listing` for
      `getAllAgents(false)`, `classify` for the selector upstream, `firstDefault` for the
      first `getDefaultAgent()` made and `secondDefault` for the one the `catch` block makes
      after the first one threw. Every failure ends in the `catch` block; none escapes. */
  function SelectAgent(
    cfg: SelectorConfig, userRequest: string, listing: Fetch<seq<Agent>>,
    classify: SelectorCall -> ClassifierReply,
    firstDefault: Fetch<Option<Agent>>, secondDefault: Fetch<Option<Agent>>): (r: AgentSelection)
    ensures r.call.Some? <==> listing.Fetched? && |listing.value| >= 2
    ensures r.call.Some? ==> r.call.value == SelectorRequest(cfg, AgentPrompt(listing.value, userRequest), userRequest)
    ensures listing.Fetched? && |listing.value| == 0 ==> r.agent == None
    ensures listing.Fetched? && |listing.value| == 1 ==> r.agent == Some(listing.value[0])
    ensures r.agent.Some? ==>
      || (listing.Fetched? && r.agent.value in listing.value)
      || firstDefault == Fetched(r.agent)
      || secondDefault == Fetched(r.agent)
  {
    match listing
    case DbError(_) => AgentSelection(CatchPath(firstDefault), None)
    case Fetched(agents) =>
      if |agents| == 0 then AgentSelection(None, None)
      else if |agents| == 1 then AgentSelection(Some(agents[0]), None)
      else
        var call := SelectorRequest(cfg, AgentPrompt(agents, userRequest), userRequest);
        match classify(call)
        case Failed(_) => AgentSelection(CatchPath(firstDefault), Some(call))
        case Replied(text) =>
          var found := FindByKey(agents, Trim(text));
          if found.Some? then
            assert found.value in agents;
            AgentSelection(found, Some(call))
          else
            match firstDefault
            case Fetched(d) => AgentSelection(d, Some(call))
            case DbError(_) => AgentSelection(CatchPath(secondDefault), Some(call))
  }

  /** The database answers are those of one agent table: a listing of its active agents and
      default lookups that answer as `getDefaultAgent` may. */
  ghost predicate Consistent(
    rows: seq<Agent>, listing: Fetch<seq<Agent>>,
    firstDefault: Fetch<Option<Agent>>, secondDefault: Fetch<Option<Agent>>)
  {
    && (listing.Fetched? ==> IsListing(rows, false, listing.value))
    && (firstDefault.Fetched? ==> DefaultAnswer(rows, firstDefault.value))
    && (secondDefault.Fetched? ==> DefaultAnswer(rows, secondDefault.value))
  }

  /** Whatever the selector upstream answers, the chosen agent is an active agent of the
      table; and when no query fails, no agent is chosen only if no agent is active. */
  lemma SelectedAgentIsActive(
    rows: seq<Agent>, cfg: SelectorConfig, userRequest: string, listing: Fetch<seq<Agent>>,
    classify: SelectorCall -> ClassifierReply,
    firstDefault: Fetch<Option<Agent>>, secondDefault: Fetch<Option<Agent>>)
    requires Consistent(rows, listing, firstDefault, secondDefault)
    ensures var r := SelectAgent(cfg, userRequest, listing, classify, firstDefault, secondDefault);
      && (r.agent.Some? ==> r.agent.value in rows && r.agent.value.isActive)
      && (listing.Fetched? && firstDefault.Fetched? && secondDefault.Fetched? ==>
            (r.agent.None? <==> forall x :: x in rows ==> !x.isActive))
  {
    var r := SelectAgent(cfg, userRequest, listing, classify, firstDefault, secondDefault);
    if listing.Fetched? {
      ListingMembers(rows, false, listing.value);
    }
    if firstDefault.Fetched? {
      DefaultAnswerActive(rows, firstDefault.value);
    }
    if secondDefault.Fetched? {
      DefaultAnswerActive(rows, secondDefault.value);
    }
    if listing.Fetched? && firstDefault.Fetched? && secondDefault.Fetched? && |listing.value| >= 1 {
      assert listing.value[0] in listing.value;
    }
  }

  /** Every failure ends in the `catch` block: a failed listing or a failed selector call
      picks what the default lookup answers, or null when that lookup fails too. With the
      lookups answering for one table, that is an admissible default agent. When the lookup
      after an unknown answer fails, the `catch` block's own lookup decides. */
  lemma FailureFallsBackToDefault(
    rows: seq<Agent>, cfg: SelectorConfig, userRequest: string, listing: Fetch<seq<Agent>>,
    classify: SelectorCall -> ClassifierReply,
    firstDefault: Fetch<Option<Agent>>, secondDefault: Fetch<Option<Agent>>)
    ensures var r := SelectAgent(cfg, userRequest, listing, classify, firstDefault, secondDefault);
      var failed := listing.DbError? || (|listing.value| >= 2 && classify(r.call.value).Failed?);
      && (failed ==> r.agent == (if firstDefault.Fetched? then firstDefault.value else None))
      && (failed && firstDefault.Fetched? && Consistent(rows, listing, firstDefault, secondDefault) ==> DefaultAnswer(rows, r.agent))
    ensures var r := SelectAgent(cfg, userRequest, listing, classify, firstDefault, secondDefault);
      && listing.Fetched? && |listing.value| >= 2 && firstDefault.DbError?
      && classify(r.call.value).Replied? && Trim(classify(r.call.value).content) !in Keys(listing.value)
      ==> r.agent == (if secondDefault.Fetched? then secondDefault.value else None)
  {
    var r := SelectAgent(cfg, userRequest, listing, classify, firstDefault, secondDefault);
    if listing.DbError? {
      assert r.agent == CatchPath(firstDefault);
    } else if |listing.value| >= 2 {
      var reply := classify(r.call.value);
      if reply.Failed? {
        assert r.agent == CatchPath(firstDefault);
      } else if firstDefault.DbError? && Trim(reply.content) !in Keys(listing.value) {
        assert FindByKey(listing.value, Trim(reply.content)).None?;
        assert r.agent == CatchPath(secondDefault);
      }
    }
  }

  /** When the selector upstream names an active agent, padded with white space or not, that
      agent is the one chosen. */
  lemma ClassifierChoiceIsHonoured(
    rows: seq<Agent>, cfg: SelectorConfig, userRequest: string, agents: seq<Agent>,
    classify: SelectorCall -> ClassifierReply,
    firstDefault: Fetch<Option<Agent>>, secondDefault: Fetch<Option<Agent>>,
    pre: string, a: Agent, post: string)
    requires UniqueKeys(rows) && IsListing(rows, false, agents) && |agents| >= 2
    requires a in rows && a.isActive
    requires AllSpace(pre) && AllSpace(post) && a.key != [] && !IsSpace(a.key[0]) && !IsSpace(a.key[|a.key| - 1])
    requires classify(SelectorRequest(cfg, AgentPrompt(agents, userRequest), userRequest)) == Replied(pre + a.key + post)
    ensures SelectAgent(cfg, userRequest, Fetched(agents), classify, firstDefault, secondDefault).agent == Some(a)
  {
    TrimPadded(pre, a.key, post);
    ListingMembers(rows, false, agents);
    FindListedRow(rows, agents, a);
  }

  /** When the selector upstream answers something that names no active agent, the default
      agent is chosen: the flagged active one if any, else an active one of top priority. */
  lemma UnknownAnswerFallsBackToDefault(
    rows: seq<Agent>, cfg: SelectorConfig, userRequest: string, agents: seq<Agent>,
    classify: SelectorCall -> ClassifierReply, d: Option<Agent>, secondDefault: Fetch<Option<Agent>>, text: string)
    requires IsListing(rows, false, agents) && |agents| >= 2
    requires DefaultAnswer(rows, d)
    requires classify(SelectorRequest(cfg, AgentPrompt(agents, userRequest), userRequest)) == Replied(text)
    requires forall x :: x in rows && x.isActive ==> x.key != Trim(text)
    ensures SelectAgent(cfg, userRequest, Fetched(agents), classify, Fetched(d), secondDefault).agent == d
    ensures d.Some? && d.value.isActive
  {
    ListingMembers(rows, false, agents);
    assert Trim(text) !in Keys(agents);
    UnlistedReplyTakesDefault(cfg, userRequest, agents, classify, d, secondDefault, text);
    DefaultAnswerActive(rows, d);
    assert agents[0] in rows && agents[0].isActive;
  }

  /** A reply naming no listed agent, with two or more listed, takes the answer of the first
      default query. */
  lemma UnlistedReplyTakesDefault(
    cfg: SelectorConfig, userRequest: string, agents: seq<Agent>, classify: SelectorCall -> ClassifierReply,
    d: Option<Agent>, secondDefault: Fetch<Option<Agent>>, text: string)
    requires |agents| >= 2
    requires classify(SelectorRequest(cfg, AgentPrompt(agents, userRequest), userRequest)) == Replied(text)
    requires Trim(text) !in Keys(agents)
    ensures SelectAgent(cfg, userRequest, Fetched(agents), classify, Fetched(d), secondDefault).agent == d
  {
  }

  /** Two active rows, the default ranked second: the listing keeps their stored order and
      the default answer is the second, so an unknown reply (see `UnknownAnswerFallsBackToDefault`)
      picks the lower-ranked default over the higher-ranked agent. */
  lemma TwoActiveRows(top: Agent, fallback: Agent, d: Option<Agent>)
    requires top.priority > fallback.priority
    requires top.isActive && !top.isDefault && fallback.isActive && fallback.isDefault
    requires DefaultAnswer([top, fallback], d)
    ensures IsListing([top, fallback], false, [top, fallback])
    ensures d == Some(fallback)
  {
    var rows := [top, fallback];
    assert AtMostOneDefault(rows);
    AllActiveEligible(rows);
    DefaultAnswerIsTheDefault(rows, fallback, d);
  }

  /** The sample agents "code-expert" (priority 8) and the default "general-assistant"
      (priority 5): the classifier sees "code-expert" first, yet a reply naming neither falls
      back to "general-assistant". */
  lemma UnknownAnswerExample(code: Agent, general: Agent, d: Option<Agent>)
    requires code.key == "code-expert" && code.priority == 8 && code.isActive && !code.isDefault
    requires general.key == "general-assistant" && general.priority == 5 && general.isActive && general.isDefault
    requires DefaultAnswer([code, general], d)
    ensures IsListing([code, general], false, [code, general])
    ensures d == Some(general)
  {
    TwoActiveRows(code, general, d);
  }

  /** The same two agents end to end: `selectAgent` lists "code-expert" first, asks the
      selector, and for a reply naming neither agent chooses "general-assistant". */
  lemma UnknownAnswerScenario(
    code: Agent, general: Agent, cfg: SelectorConfig, userRequest: string,
    classify: SelectorCall -> ClassifierReply, d: Option<Agent>, secondDefault: Fetch<Option<Agent>>, text: string)
    requires code.key == "code-expert" && code.priority == 8 && code.isActive && !code.isDefault
    requires general.key == "general-assistant" && general.priority == 5 && general.isActive && general.isDefault
    requires DefaultAnswer([code, general], d)
    requires classify(SelectorRequest(cfg, AgentPrompt([code, general], userRequest), userRequest)) == Replied(text)
    requires Trim(text) != "code-expert" && Trim(text) != "general-assistant"
    ensures var r := SelectAgent(cfg, userRequest, Fetched([code, general]), classify, Fetched(d), secondDefault);
      r.call == Some(SelectorRequest(cfg, AgentPrompt([code, general], userRequest), userRequest)) && r.agent == Some(general)
  {
    var rows := [code, general];
    UnknownAnswerExample(code, general, d);
    assert forall x :: x in rows && x.isActive ==> x.key != Trim(text);
    UnknownAnswerFallsBackToDefault(rows, cfg, userRequest, rows, classify, d, secondDefault, text);
  }


}

/** `modelSelector.js`: choosing the model id a chat-completion request is routed to.
    As written, the prompt is built from `SELECTOR_PROMPT_TEMPLATE`, a name the module never
    defines, so every request with two or more active models throws a `ReferenceError` and
    lands in the `catch` block: `SelectModel` models that. `SelectModelWithTemplate` is the
    evidently intended version, which builds the prompt from `DEFAULT_PROMPT_TEMPLATE`. */
module ModelSelector {
  import opened Wrappers
  import opened Text
  import opened Catalog
  import opened ModelConfigService
  import opened Chat

  const ModelTemplate: string :=
    "\n你是一个智能模型选择器。根据用户的请求，选择最合适的AI模型进行回答。\n以下是可用的模型及其能力描述:\n\n"
    + "{{MODEL_DESCRIPTIONS}}"
    + "\n\n用户的请求是: \"" + "{{USER_REQUEST}}" + "\"\n\n你的任务是选择一个最合适的模型来处理这个请求。请只返回该模型的modelId，无需解释。\n"

  /** The block describing one model configuration. */
  function DescribeModel(m: ModelConfig): string
  {
    "modelId: " + m.key + "\n名称: " + m.data.name + "\n描述: " + m.data.description
    + "\n能力: " + m.data.capabilities + "\n---"
  }

  function ModelPrompt(models: seq<ModelConfig>, userRequest: string): string
  {
    var descriptions := Join(seq(|models|, i requires 0 <= i < |models| => DescribeModel(models[i])), "\n");
    ReplaceFirst(ReplaceFirst(ModelTemplate, "{{MODEL_DESCRIPTIONS}}", descriptions), "{{USER_REQUEST}}", userRequest)
  }

  /** What `selectModel` settles with: a model id (`None` for an unset `DEFAULT_MODEL_ID`),
      or the error it rethrows. */
  datatype ModelChoice = Chosen(modelId: Option<string>) | Thrown(message: string)

  /** The `catch` block: the default model's id; else the first of all configurations,
      inactive ones included (`getAllModelConfigs()` with its default argument); else
      `DEFAULT_MODEL_ID`. A failing query here is not caught. */
  function ModelCatchPath(cfg: SelectorConfig, defaultQuery: Fetch<Option<ModelConfig>>, allQuery: Fetch<seq<ModelConfig>>): (r: ModelChoice)
    ensures r.Thrown? <==> defaultQuery.DbError? || (defaultQuery == Fetched(None) && allQuery.DbError?)
    ensures defaultQuery.Fetched? && defaultQuery.value.Some? ==> r == Chosen(Some(defaultQuery.value.value.key))
    ensures defaultQuery == Fetched(None) && allQuery.Fetched? ==>
      r == Chosen(if |allQuery.value| > 0 then Some(allQuery.value[0].key) else cfg.modelId)
  {
    match defaultQuery
    case DbError(m) => Thrown(m)
    case Fetched(d) =>
      if d.Some? then Chosen(Some(d.value.key))
      else
        match allQuery
        case DbError(m) => Thrown(m)
        case Fetched(all) => if |all| > 0 then Chosen(Some(all[0].key)) else Chosen(cfg.modelId)
  }

  /** `selectModel(userRequest)` as written; `cfg` holds `DEFAULT_MODEL_ID`,
      `DEFAULT_BASE_URL` and `DEFAULT_API_KEY`, which have no fallbacks. `listing` answers `getAllModelConfigs(false)`,
      `defaultQuery` the `getDefaultModelConfig()` of the `catch` block and `allQuery` its
      `getAllModelConfigs()`. With two or more active models the selector upstream is never
      called. */
  function SelectModel(
    cfg: SelectorConfig, userRequest: string, listing: Fetch<seq<ModelConfig>>,
    defaultQuery: Fetch<Option<ModelConfig>>, allQuery: Fetch<seq<ModelConfig>>): (r: ModelChoice)
    ensures listing.Fetched? && |listing.value| == 0 ==> r == Chosen(cfg.modelId)
    ensures listing.Fetched? && |listing.value| == 1 ==> r == Chosen(Some(listing.value[0].key))
    ensures listing.DbError? || |listing.value| >= 2 ==> r == ModelCatchPath(cfg, defaultQuery, allQuery)
  {
    match listing
    case DbError(_) => ModelCatchPath(cfg, defaultQuery, allQuery)
    case Fetched(models) =>
      if |models| == 0 then Chosen(cfg.modelId)
      else if |models| == 1 then Chosen(Some(models[0].key))
      else
        // `SELECTOR_PROMPT_TEMPLATE` is not defined: the prompt is never built.
        ModelCatchPath(cfg, defaultQuery, allQuery)
  }

  /** The choice and the classification call made, if any. */
  datatype ModelSelection = ModelSelection(choice: ModelChoice, call: Option<SelectorCall>)

  /** `selectModel` with the prompt built from `DEFAULT_PROMPT_TEMPLATE`. `firstDefault`
      answers the first `getDefaultModelConfig()` made; `secondDefault` the one the `catch`
      block makes after the first one threw. */
  function SelectModelWithTemplate(
    cfg: SelectorConfig, userRequest: string, listing: Fetch<seq<ModelConfig>>,
    classify: SelectorCall -> ClassifierReply, firstDefault: Fetch<Option<ModelConfig>>,
    secondDefault: Fetch<Option<ModelConfig>>, allQuery: Fetch<seq<ModelConfig>>): (r: ModelSelection)
    ensures r.call.Some? <==> listing.Fetched? && |listing.value| >= 2
    ensures r.call.Some? ==> r.call.value == SelectorRequest(cfg, ModelPrompt(listing.value, userRequest), userRequest)
    ensures listing.Fetched? && |listing.value| < 2 ==> r.choice == SelectModel(cfg, userRequest, listing, firstDefault, allQuery)
  {
    match listing
    case DbError(_) => ModelSelection(ModelCatchPath(cfg, firstDefault, allQuery), None)
    case Fetched(models) =>
      if |models| == 0 then ModelSelection(Chosen(cfg.modelId), None)
      else if |models| == 1 then ModelSelection(Chosen(Some(models[0].key)), None)
      else
        var call := SelectorRequest(cfg, ModelPrompt(models, userRequest), userRequest);
        match classify(call)
        case Failed(_) => ModelSelection(ModelCatchPath(cfg, firstDefault, allQuery), Some(call))
        case Replied(text) =>
          var id := Trim(text);
          if FindByKey(models, id).Some? then ModelSelection(Chosen(Some(id)), Some(call))
          else
            match firstDefault
            case Fetched(d) =>
              ModelSelection(Chosen(Some(if d.Some? then d.value.key else models[0].key)), Some(call))
            case DbError(_) => ModelSelection(ModelCatchPath(cfg, secondDefault, allQuery), Some(call))
  }

  /** The database answers are those of one model table. */
  ghost predicate Consistent(
    rows: seq<ModelConfig>, listing: Fetch<seq<ModelConfig>>, defaults: seq<Fetch<Option<ModelConfig>>>,
    allQuery: Fetch<seq<ModelConfig>>)
  {
    && (listing.Fetched? ==> IsListing(rows, false, listing.value))
    && (forall i :: 0 <= i < |defaults| && defaults[i].Fetched? ==> DefaultAnswer(rows, defaults[i].value))
    && (allQuery.Fetched? ==> IsListing(rows, true, allQuery.value))
  }

  /** As written, when two or more models are active the choice is always the default model,
      whatever the request says. */
  lemma AsWrittenAlwaysPicksDefault(
    rows: seq<ModelConfig>, cfg: SelectorConfig, userRequest: string, models: seq<ModelConfig>,
    d: Option<ModelConfig>, allQuery: Fetch<seq<ModelConfig>>)
    requires Consistent(rows, Fetched(models), [Fetched(d)], allQuery) && |models| >= 2
    ensures d.Some? && d.value in rows && d.value.isActive
    ensures SelectModel(cfg, userRequest, Fetched(models), Fetched(d), allQuery) == Chosen(Some(d.value.key))
  {
    assert DefaultAnswer(rows, [Fetched(d)][0].value);
    ListingMembers(rows, false, models);
    assert models[0] in rows && models[0].isActive;
    DefaultAnswerActive(rows, d);
  }

  /** The model chosen when the selector upstream names an active model, padded with white
      space or not: the corrected version takes it, the code as written takes the default. */
  lemma SelectorAnswerIsHonoured(
    rows: seq<ModelConfig>, cfg: SelectorConfig, userRequest: string, models: seq<ModelConfig>,
    classify: SelectorCall -> ClassifierReply, firstDefault: Fetch<Option<ModelConfig>>,
    secondDefault: Fetch<Option<ModelConfig>>, allQuery: Fetch<seq<ModelConfig>>,
    pre: string, m: ModelConfig, post: string)
    requires IsListing(rows, false, models) && |models| >= 2
    requires m in rows && m.isActive
    requires AllSpace(pre) && AllSpace(post) && m.key != [] && !IsSpace(m.key[0]) && !IsSpace(m.key[|m.key| - 1])
    requires classify(SelectorRequest(cfg, ModelPrompt(models, userRequest), userRequest)) == Replied(pre + m.key + post)
    ensures SelectModelWithTemplate(cfg, userRequest, Fetched(models), classify, firstDefault, secondDefault, allQuery).choice
      == Chosen(Some(m.key))
  {
    TrimPadded(pre, m.key, post);
    ListingMembers(rows, false, models);
    assert m in models;
    assert m.key in Keys(models);
  }

  /** The corrected version's fallbacks with two or more active models: a failed listing or
      selector call goes to the `catch` block with the first default query; a reply naming no
      listed model takes the default model's id, else the first listed model's, and when
      that default query throws, the `catch` block runs with the second one. */
  lemma CorrectedFallbacks(
    cfg: SelectorConfig, userRequest: string, listing: Fetch<seq<ModelConfig>>,
    classify: SelectorCall -> ClassifierReply, firstDefault: Fetch<Option<ModelConfig>>,
    secondDefault: Fetch<Option<ModelConfig>>, allQuery: Fetch<seq<ModelConfig>>)
    ensures var r := SelectModelWithTemplate(cfg, userRequest, listing, classify, firstDefault, secondDefault, allQuery);
      listing.DbError? || (|listing.value| >= 2 && classify(r.call.value).Failed?) ==>
        r.choice == ModelCatchPath(cfg, firstDefault, allQuery)
    ensures var r := SelectModelWithTemplate(cfg, userRequest, listing, classify, firstDefault, secondDefault, allQuery);
      && listing.Fetched? && |listing.value| >= 2 && classify(r.call.value).Replied?
      && Trim(classify(r.call.value).content) !in Keys(listing.value) ==>
        r.choice == match firstDefault
          case Fetched(d) => Chosen(Some(if d.Some? then d.value.key else listing.value[0].key))
          case DbError(_) => ModelCatchPath(cfg, secondDefault, allQuery)
  {
    var r := SelectModelWithTemplate(cfg, userRequest, listing, classify, firstDefault, secondDefault, allQuery);
    if listing.Fetched? && |listing.value| >= 2 {
      var reply := classify(r.call.value);
      if reply.Replied? && Trim(reply.content) !in Keys(listing.value) {
        assert FindByKey(listing.value, Trim(reply.content)).None?;
      }
    }
  }

  /** With the database answers of one table, a reply naming no active model picks the key of
      the default model the lookup answers, which is an active model. */
  lemma UnknownReplyPicksDefaultModel(
    rows: seq<ModelConfig>, cfg: SelectorConfig, userRequest: string, models: seq<ModelConfig>,
    classify: SelectorCall -> ClassifierReply, d: Option<ModelConfig>,
    secondDefault: Fetch<Option<ModelConfig>>, allQuery: Fetch<seq<ModelConfig>>, text: string)
    requires IsListing(rows, false, models) && |models| >= 2
    requires DefaultAnswer(rows, d)
    requires classify(SelectorRequest(cfg, ModelPrompt(models, userRequest), userRequest)) == Replied(text)
    requires forall x :: x in rows && x.isActive ==> x.key != Trim(text)
    ensures d.Some? && d.value in rows && d.value.isActive
    ensures SelectModelWithTemplate(cfg, userRequest, Fetched(models), classify, Fetched(d), secondDefault, allQuery).choice
      == Chosen(Some(d.value.key))
  {
    ListingMembers(rows, false, models);
    assert Trim(text) !in Keys(models);
    DefaultAnswerActive(rows, d);
    assert models[0] in rows && models[0].isActive;
    CorrectedFallbacks(cfg, userRequest, Fetched(models), classify, Fetched(d), secondDefault, allQuery);
  }

  /** Whatever the selector upstream answers, the corrected version picks the key of an
      active model when some model is active and no query fails. */
  lemma CorrectedPicksActiveModel(
    rows: seq<ModelConfig>, cfg: SelectorConfig, userRequest: string, models: seq<ModelConfig>,
    classify: SelectorCall -> ClassifierReply, firstDefault: Option<ModelConfig>,
    secondDefault: Option<ModelConfig>, all: seq<ModelConfig>)
    requires Consistent(rows, Fetched(models), [Fetched(firstDefault), Fetched(secondDefault)], Fetched(all))
    requires exists x :: x in rows && x.isActive
    ensures var r := SelectModelWithTemplate(cfg, userRequest, Fetched(models), classify,
                                             Fetched(firstDefault), Fetched(secondDefault), Fetched(all));
      exists x :: x in rows && x.isActive && r.choice == Chosen(Some(x.key))
  {
    var r := SelectModelWithTemplate(cfg, userRequest, Fetched(models), classify,
                                     Fetched(firstDefault), Fetched(secondDefault), Fetched(all));
    assert DefaultAnswer(rows, [Fetched(firstDefault), Fetched(secondDefault)][0].value);
    ListingMembers(rows, false, models);
    DefaultAnswerActive(rows, firstDefault);
    var x :| x in rows && x.isActive;
    assert x in models;
    assert models[0] in rows && models[0].isActive;
    if |models| >= 2 {
      var call := SelectorRequest(cfg, ModelPrompt(models, userRequest), userRequest);
      if classify(call).Replied? {
        var found := FindByKey(models, Trim(classify(call).content));
        if found.Some? {
          var i :| 0 <= i < |models| && models[i] == found.value;
          assert models[i] in models;
        }
      }
    }
  }

  /** When no model is active and the active listing fails, the `catch` block falls through
      to the top-priority configuration of all, although it is inactive. */
  lemma NoActiveModelPicksInactive(
    rows: seq<ModelConfig>, cfg: SelectorConfig, userRequest: string, e: string, all: seq<ModelConfig>,
    d: Option<ModelConfig>)
    requires Consistent(rows, DbError(e), [Fetched(d)], Fetched(all))
    requires forall x :: x in rows ==> !x.isActive
    requires |rows| > 0
    ensures SelectModel(cfg, userRequest, DbError(e), Fetched(d), Fetched(all)) == Chosen(Some(all[0].key))
    ensures all[0] in rows && !all[0].isActive
    ensures forall x :: x in rows ==> x.priority <= all[0].priority
  {
    assert DefaultAnswer(rows, [Fetched(d)][0].value);
    DefaultAnswerActive(rows, d);
    ListingMembers(rows, true, all);
    assert rows[0] in all;
    forall x | x in rows ensures x.priority <= all[0].priority {
      assert x in all;
      var i :| 0 <= i < |all| && all[i] == x;
      assert i == 0 || all[0].priority >= all[i].priority;
    }
  }

  /** The concrete case behind the finding: two active models, "gpt-4" flagged default and
      "claude-3-opus", and a selector upstream that answers "claude-3-opus". */
  lemma SelectorIgnoredExample(cfg: SelectorConfig, userRequest: string, a: ModelFields, b: ModelFields)
    ensures var gpt4 := Row("gpt-4", 10, true, true, a);
      var opus := Row("claude-3-opus", 8, true, false, b);
      var classify := (c: SelectorCall) => Replied("claude-3-opus");
      && SelectModel(cfg, userRequest, Fetched([gpt4, opus]), Fetched(Some(gpt4)), Fetched([gpt4, opus]))
         == Chosen(Some("gpt-4"))
      && SelectModelWithTemplate(cfg, userRequest, Fetched([gpt4, opus]), classify,
           Fetched(Some(gpt4)), Fetched(Some(gpt4)), Fetched([gpt4, opus])).choice
         == Chosen(Some("claude-3-opus"))
  {
    TrimPadded([], "claude-3-opus", []);
    assert [] + "claude-3-opus" + [] == "claude-3-opus";
    var gpt4 := Row("gpt-4", 10, true, true, a);
    var opus := Row("claude-3-opus", 8, true, false, b);
    assert FindByKey([gpt4, opus], "claude-3-opus") == Some(opus) by {
      assert [gpt4, opus][1..] == [opus];
    }
  }
}

# llm-moe-api core, modelled in Dafny

llm-moe-api is an OpenAI-compatible gateway. A chat-completion request first passes the API
key check. The agent selector then asks a "selector" model which configured agent should
answer. The proxy adapts the request to that agent (system prompt, sampling parameters,
model, API key), or to the model's own prompt prefix when no agent is chosen. Finally it
forwards the request upstream and relays the answer. Agents and model configurations live
in two database tables. Their services keep the records unique by key and try to keep at
most one default. `initializeSystem` seeds both tables with sample records and creates the
first administrator.

This project models that core as values and state:

- `wrappers.dfy` (`Wrappers`): nullable values (`Option`), JavaScript object properties that
  may be `undefined` or `null` (`Field`), query outcomes (`Fetch`), and JavaScript's `||` and
  truthiness on strings.
- `text.dfy` (`Text`): `String.prototype.trim`, the first-occurrence `replace` with its `$`
  patterns, `indexOf`, `includes` and `join`.
- `catalog.dfy` (`Catalog`): the Prisma queries and updates both services issue, over a
  generic record `Row<T>`, and the class `Table<T>` whose methods change the rows in place.
- `agent_service.dfy`, `model_config_service.dfy`: `agentService.js` and
  `modelConfigService.js` over that table.
- `chat.dfy` (`Chat`): the classification call both selectors make.
- `agent_selector.dfy`, `model_selector.dfy`: `selectAgent` and `selectModel`.
- `llm_proxy.dfy` (`LlmProxy`): `proxyLLMRequest`. The caller's `messages` array and message
  objects are classes, because the proxy changes them in place.
- `auth.dfy` (`Auth`): `apiAuthMiddleware` and `adminAuthMiddleware`, including the
  backtracking behaviour of `/^Bearer\s+(?:sk-)?(.+)$/i`.
- `setup.dfy` (`Setup`): `initializeSystem` and its sample records.

Awaited database queries and network calls are parameters. Each is either the answer it
gave or the error it threw (`Fetch`, `ClassifierReply`, `Upstream`). Where a query may
answer in more than one way (rows of equal priority, several default rows), a ghost
predicate (`IsListing`, `DefaultAnswer`) states every admissible answer. The lemmas then
hold for all of them.

Where the design documentation and the code disagree, the model follows the code:

- The proxy changes the caller's request. `{ ...requestData }` is a shallow copy, so the
  `unshift` of a system message and the rewrite of the first message's content reach the
  caller's own array and objects (`LlmProxy.CallerSeesAdaptation`).
- An agent's system prompt replaces the content of every system message, not only the
  first.
- An upstream status outside 200-299 is answered with the body text wrapped as
  `{ error: text }`. The body is not passed through unchanged.
- The forwarded body keeps the client's `model` value. Only the URL and key come from the
  chosen configuration.
- `selectModel` never consults the selector with two or more active models (see Findings).

Re-running the seeding without clearing can leave two default agents or models. A sample
whose key is already present is written with a plain Prisma `update`, which does not clear
the other defaults (`Setup.UpsertDefaults`, `Setup.ReseedCanLeaveTwoDefaults`).

## Model

| member | source | states |
|---|---|---|
| Wrappers.Or | src/services/agentSelector.js:6-10 | `a \|\| b`: the first operand when it is a non-empty string, else the second; the result is truthy exactly when one of them is |
| Text.TrimStart | src/services/agentSelector.js:77-78 | the result is a suffix of the input, everything removed is white space, and the result does not start with white space |
| Text.TrimEnd | src/services/agentSelector.js:77-78 | the result is a prefix of the input, everything removed is white space, and the result does not end with white space |
| Text.Trim | src/services/agentSelector.js:77-78 | `trim()` leaves no white space at either end and never lengthens the text |
| Text.TrimPadded | src/services/agentSelector.js:77-78 | trimming white-space padding gives back exactly the padded text, when that text has no white space at either end |
| Text.TrimStartPadded | src/services/agentSelector.js:77-78 | leading white space in front of a text that does not start with white space is removed exactly |
| Text.TrimEndPadded | src/services/agentSelector.js:77-78 | trailing white space after a text that does not end with white space is removed exactly |
| Text.Join | src/services/agentSelector.js:41-48 | reference definition of `parts.join(sep)`: nothing for no parts, the part itself for one, the parts separated by `sep` otherwise |
| Text.IndexOf | src/services/agentSelector.js:51-53 | the first occurrence at or after `from`: it occurs there, none occurs earlier, and None means none occurs at all |
| Text.Expand | src/services/agentSelector.js:51-53 | reference definition of the replacement text `replace` inserts for a string pattern (`$$`, `$&`, `` $` ``, `$'`, any other `$` as itself); `Text.ExpandLiteral` states that a `$`-free text is inserted as it is |
| Text.ExpandLiteral | src/services/agentSelector.js:51-53 | a replacement text with no `$` is inserted as it is |
| Text.ReplaceFirst | src/services/agentSelector.js:51-53 | `replace` with a pattern that does not occur leaves the text unchanged |
| Text.ReplaceFirstAt | src/services/agentSelector.js:51-53 | `replace` changes the first occurrence, and only it, into the (`$`-free) replacement |
| Catalog.Eligible | src/services/agentService.js:3-15 | the `where` filter: exactly the rows that are active or, with `includeInactive`, all of them |
| Catalog.InsertKeepsOrder | src/services/agentService.js:11-13 | inserting into a list ordered by descending priority keeps it ordered and adds exactly the one row, which lands in front or behind the old head |
| Catalog.SortByPriority | src/services/agentService.js:11-13 | `orderBy: { priority: 'desc' }` returns a permutation ordered by descending priority |
| Catalog.AllActiveEligible | src/services/agentService.js:3-15 | when every row is active, the active-only filter keeps all rows in their order |
| Catalog.ListingMembers | src/services/modelConfigService.js:4-13 | a listing holds a row exactly when the table has it and it passes the filter |
| Catalog.FindByKey | src/services/modelConfigService.js:15-19 | `findUnique` by key: the answer has the key and is a row of the table; null exactly when no row has the key |
| Catalog.FindListedRow | src/services/agentSelector.js:81 | in a listing drawn from a table with unique keys, `find` by a listed row's key returns that row |
| Catalog.FirstDefault | src/services/modelConfigService.js:23-28 | the first `findFirst`: a default and active row, or null when there is none |
| Catalog.TopActive | src/services/modelConfigService.js:31-40 | the second `findFirst`: an active row of greatest priority, or null when no row is active |
| Catalog.DefaultOf | src/services/modelConfigService.js:21-43 | the lookup answers as `getDefault*` may: a default active row, else an active one of top priority, else null |
| Catalog.DefaultAnswerActive | src/services/agentService.js:24-52 | a default answer is always an active row, and it is null exactly when no row is active |
| Catalog.DefaultAnswerIsTheDefault | src/services/agentService.js:26-34 | with at most one default flag, an active default row is the only possible answer |
| Catalog.DefaultsCleared | src/services/agentService.js:71-79 | reference definition of the `updateMany` unflagging defaults, row by row; what it guarantees is stated by `Catalog.ClearedDefaults` |
| Catalog.ClearedDefaults | src/services/agentService.js:71-79 | after unflagging, only the kept key may still be a default; rows differ only in the flag, and keys are unchanged |
| Catalog.Patched | src/services/agentService.js:81-85 | reference definition of one record under `update({ data })`: the key kept, each given column written, each column the data leaves `undefined` kept |
| Catalog.RawUpdated | src/services/agentService.js:81-85 | reference definition of `update` by key, row by row; what it guarantees is stated by `Catalog.RawUpdatedKeys`, `Catalog.UpdatedInvariants` and `Setup.UpdateToSameRecord` |
| Catalog.RawUpdatedKeys | src/services/agentService.js:81-85 | an update never adds or removes a key |
| Catalog.Created | src/services/agentService.js:54-67 | reference definition of `createAgent`/`createModelConfig`: defaults cleared first when the new record is a default, then the record appended when its key is free; `Catalog.CreatedInvariants` and `Catalog.Table.Create` state what it guarantees |
| Catalog.Updated | src/services/agentService.js:69-86 | reference definition of `updateAgent`/`updateModelConfig`: the other defaults cleared when the patch sets the flag, then `RawUpdated`; `Catalog.UpdatedInvariants` and `Catalog.UpdateOfMissingKey` state what it guarantees |
| Catalog.CreatedInvariants | src/services/agentService.js:54-67 | a create keeps keys unique and at most one default; a new default is afterwards the only one; a non-default create leaves the existing rows untouched |
| Catalog.UpdatedInvariants | src/services/agentService.js:69-86 | an update keeps keys unique and at most one default; a patch setting the flag leaves exactly the updated key as default |
| Catalog.UpdateOfMissingKey | src/services/modelConfigService.js:59-75 | updating a missing key changes no data, but a default-setting patch has already cleared every default flag |
| Catalog.SoftDeleteOnlyDeactivates | src/services/agentService.js:88-93 | a soft delete changes only the deleted row's `isActive`, to false; that row is never the default answer afterwards |
| Catalog.Table.constructor | src/services/agentService.js:1 | a table starts with the given rows, unique by key |
| Catalog.Table.GetAll | src/services/modelConfigService.js:4-13 | `findMany` answers an admissible listing of the table |
| Catalog.Table.GetByKey | src/services/modelConfigService.js:15-19 | the row with the key, null exactly when there is none |
| Catalog.Table.GetDefault | src/services/modelConfigService.js:21-43 | an admissible default answer for the table |
| Catalog.Table.Exists | src/services/modelConfigService.js:84-89 | `count > 0` exactly when some row has the key |
| Catalog.Table.DeleteAll | src/setup.js:146-151 | `deleteMany({})` leaves the table empty |
| Catalog.Table.ClearDefaults | src/services/agentService.js:57-60 | the loop leaves the rows as `DefaultsCleared` of the old rows |
| Catalog.Table.Insert | src/services/agentService.js:63-66 | `create` appends the row when its key is free, and otherwise fails and changes nothing |
| Catalog.Table.RawUpdate | src/services/agentService.js:81-85 | `update` succeeds exactly when the key exists, and the rows become `RawUpdated` of the old rows |
| Catalog.Table.Create | src/services/agentService.js:54-67 | clearing then inserting: the rows become `Created` of the old rows; success exactly when the key was free |
| Catalog.Table.Update | src/services/agentService.js:69-86 | clearing other defaults then updating: the rows become `Updated` of the old rows; success exactly when the key exists |
| Catalog.Table.SoftDelete | src/services/agentService.js:88-93 | `update` with `isActive: false` only |
| AgentService.GetAllAgents | src/services/agentService.js:3-15 | an admissible listing of the agents, active ones only unless `includeInactive` |
| AgentService.GetAgentById | src/services/agentService.js:17-22 | the agent with that id (active or not), null exactly when there is none |
| AgentService.GetDefaultAgent | src/services/agentService.js:24-52 | an admissible default agent |
| AgentService.CreateAgent | src/services/agentService.js:54-67 | the agent table after `createAgent`, and whether the create succeeded |
| AgentService.UpdateAgent | src/services/agentService.js:69-86 | the agent table after `updateAgent`, and whether the update succeeded |
| AgentService.DeleteAgent | src/services/agentService.js:88-93 | the agent table after the soft delete |
| ModelConfigService.GetAllModelConfigs | src/services/modelConfigService.js:4-13 | an admissible listing of the configurations |
| ModelConfigService.GetModelConfigById | src/services/modelConfigService.js:15-19 | the configuration with that id (active or not), null exactly when there is none |
| ModelConfigService.GetDefaultModelConfig | src/services/modelConfigService.js:21-43 | an admissible default configuration |
| ModelConfigService.ModelConfigExists | src/services/modelConfigService.js:84-89 | true exactly when a record has the id |
| ModelConfigService.CreateModelConfig | src/services/modelConfigService.js:45-57 | the table after `createModelConfig`, and whether the create succeeded |
| ModelConfigService.UpdateModelConfig | src/services/modelConfigService.js:59-75 | the table after `updateModelConfig`, and whether the update succeeded |
| ModelConfigService.DeleteModelConfig | src/services/modelConfigService.js:77-82 | the table after the soft delete |
| AgentSelector.AgentSelectorConfig | src/services/agentSelector.js:6-10 | unset or empty `SELECTOR_MODEL_ID` and `SELECTOR_BASE_URL` fall back to "gpt-4" and the OpenAI URL; the key has no fallback |
| Chat.SelectorRequest | src/services/agentSelector.js:56-70 | reference definition of the classification call both selectors make: `${baseUrl}/chat/completions`, `Bearer ${apiKey}` (an unset part rendered as "undefined"), the selector model, the prompt as the system message and the user text as the user message, temperature 0.3, at most 50 tokens; `AgentSelector.SelectAgent` and `ModelSelector.SelectModelWithTemplate` state that it is the call made |
| AgentSelector.DescribeAgent | src/services/agentSelector.js:41-47 | reference definition of one agent's block in the prompt: id, name, description, capabilities, the model line only when the agent names a model, and `---` |
| AgentSelector.AgentPrompt | src/services/agentSelector.js:40-53 | reference definition of the selector prompt: the agent blocks joined by newlines, put into the template, then the user text, each by a first-occurrence `replace`; `AgentSelector.SelectAgent` states that the selector call carries it |
| AgentSelector.CatchPath | src/services/agentSelector.js:94-109 | the `catch` block answers exactly what its own default query returned, and null when that query failed |
| AgentSelector.SelectAgent | src/services/agentSelector.js:25-110 | the selector is called exactly when two or more agents are active, with the prompt from the template; no agent gives null, one agent gives that agent; any chosen agent came from the listing or a default query |
| AgentSelector.FailureFallsBackToDefault | src/services/agentSelector.js:25-110 | a failed listing, or a failed selector call with two or more agents, chooses exactly the answer of the first `getDefaultAgent` query (null when it failed), which is an admissible default agent when the queries agree; an answer naming no agent, when the first default query fails, chooses the answer of the `catch` block's query |
| AgentSelector.SelectedAgentIsActive | src/services/agentSelector.js:25-110 | whatever the selector answers, the chosen agent is an active agent of the table; with no failed query, null exactly when no agent is active |
| AgentSelector.ClassifierChoiceIsHonoured | src/services/agentSelector.js:77-81 | when the selector names an active agent, padded with white space or not, that agent is chosen |
| AgentSelector.UnknownAnswerFallsBackToDefault | src/services/agentSelector.js:81-90 | an answer naming no active agent falls back to the default agent, which is active |
| AgentSelector.TwoActiveRows | src/services/agentSelector.js:81-90 | with two active agents, the higher-ranked one not the default and the lower-ranked one the default: the listing keeps their order and the fallback is the lower-ranked default |
| AgentSelector.UnknownAnswerExample | src/services/agentSelector.js:81-90 | with "code-expert" (priority 8) and the default "general-assistant" (priority 5), the selector sees "code-expert" first, yet the fallback for an answer naming neither is "general-assistant" |
| AgentSelector.UnknownAnswerScenario | src/services/agentSelector.js:25-90 | `selectAgent` over "code-expert" (priority 8) and the default "general-assistant" (priority 5) asks the selector with both listed, and for a reply naming neither chooses "general-assistant" |
| ModelSelector.DescribeModel | src/services/modelSelector.js:41-47 | reference definition of one model's block in the prompt: id, name, description, capabilities and `---` |
| ModelSelector.ModelPrompt | src/services/modelSelector.js:40-52 | reference definition of the prompt the corrected version builds from `DEFAULT_PROMPT_TEMPLATE`; `ModelSelector.SelectModelWithTemplate` states that the selector call carries it |
| ModelSelector.CorrectedFallbacks | src/services/modelSelector.js:73-114 | corrected: a failed listing or selector call goes to the `catch` block with the first default query; a reply naming no listed model takes the default model's id, else the first listed model's, and the `catch` block with the second default query when the first one throws |
| ModelSelector.UnknownReplyPicksDefaultModel | src/services/modelSelector.js:80-90 | corrected: with the answers of one table, a reply naming no active model picks the default model the lookup answers, which is active |
| ModelSelector.ModelCatchPath | src/services/modelSelector.js:95-114 | the `catch` block throws exactly when one of its own queries fails; otherwise it picks the default model's id, else the first configuration's id, else `DEFAULT_MODEL_ID` |
| ModelSelector.SelectModel | src/services/modelSelector.js:25-115 | as written: no active model gives `DEFAULT_MODEL_ID`, one gives its id, a failed listing or two or more models go to the `catch` block |
| ModelSelector.SelectModelWithTemplate | src/services/modelSelector.js:25-115 | corrected: the selector is called exactly when two or more models are active, with the prompt from `DEFAULT_PROMPT_TEMPLATE`; with fewer it agrees with `SelectModel`; its fallbacks on two or more are stated by `ModelSelector.CorrectedFallbacks`, and the honoured answer by `ModelSelector.SelectorAnswerIsHonoured` |
| ModelSelector.AsWrittenAlwaysPicksDefault | src/services/modelSelector.js:49-52 | as written, with two or more active models the choice is always the default model |
| ModelSelector.SelectorAnswerIsHonoured | src/services/modelSelector.js:78-94 | corrected: when the selector names an active model, padded or not, that model is chosen |
| ModelSelector.CorrectedPicksActiveModel | src/services/modelSelector.js:25-115 | corrected: with some model active and no query failing, the choice is always an active model's id |
| ModelSelector.NoActiveModelPicksInactive | src/services/modelSelector.js:104-109 | with no active model and a failed listing, the `catch` block picks the top-priority configuration although it is inactive |
| ModelSelector.SelectorIgnoredExample | src/services/modelSelector.js:49-52 | with "gpt-4" default and "claude-3-opus" named by the selector, the code as written picks "gpt-4" and the corrected one "claude-3-opus" |
| LlmProxy.Message.constructor | src/services/llmProxy.js:55-58 | a new message object with the given role and content |
| LlmProxy.MessageArray.constructor | src/services/llmProxy.js:11 | the request's array of message objects |
| LlmProxy.MessageArray.Unshift | src/services/llmProxy.js:55-58 | `unshift` puts the message in front of the existing ones |
| LlmProxy.UserContents | src/services/llmProxy.js:11-14 | reference definition of `filter(role === 'user').map(content)`: the user messages' contents in order; `LlmProxy.SameUserContents` and `LlmProxy.SystemInFrontKeepsUserContents` state how it behaves under the adaptations |
| LlmProxy.UserText | src/services/llmProxy.js:11-15 | reference definition of the text the agent is chosen for: the user contents joined by newlines, none when `messages` is missing; `LlmProxy.ForwardKeepsUserText` states that forwarding keeps it |
| LlmProxy.View | src/services/llmProxy.js:11-15 | the role and content of each message object, in order |
| LlmProxy.WithAgentPrompt | src/services/llmProxy.js:44-60 | afterwards there is a system message and every system message carries the agent's prompt; when system messages exist, each becomes the prompt at its own place and the others stay in place; with none, the prompt comes in front |
| LlmProxy.WithModelPrompt | src/services/llmProxy.js:83-95 | a first system message gets the prefix, a blank line and its old content; otherwise the prefix comes in front as a new system message |
| LlmProxy.MergeSampling | src/services/llmProxy.js:63-73 | temperature and top-p are overridden unless the agent's field is `undefined`; max tokens only when the agent's value is positive |
| LlmProxy.Relay | src/services/llmProxy.js:106-149 | a status outside 200-299 comes back as `{ error: text }` with that status in both modes; a stream exactly on success with `stream: true`, with the three event-stream headers; a non-stream success answers the parsed JSON with status 200, or a 500 with the parse error's message; thrown errors as 500 |
| LlmProxy.NoMessagesError | src/services/llmProxy.js:46 | reference definition of the message of the `TypeError` from `.some` on a `null` or missing `messages` |
| LlmProxy.TargetModel | src/services/llmProxy.js:21-29 | reference definition of the id looked up: the agent's model when it names one, else the requested id (possibly `undefined`); `LlmProxy.Proxy` and `LlmProxy.ForwardTarget` state its use |
| LlmProxy.Proxy | src/services/llmProxy.js:20-149 | a call is forwarded exactly when the target model id is defined, the lookup succeeds and finds it, and an agent prompt does not meet a missing `messages`; otherwise each error reply exactly (500 with the thrown message for an `undefined` id, a failed lookup or missing messages; 404 "Model configuration not found"); with an agent the messages carry its prompt and the sampling is merged, without one the messages carry the model's prefix and the sampling is the client's; `model` and `stream` are kept |
| LlmProxy.ProxyLLMRequest | src/services/llmProxy.js:8-150 | the agent is chosen for the user text of the request; the forwarded call and the reply are those of `Proxy`; the caller's messages end up as `Proxy` says |
| LlmProxy.AgentForward | src/services/llmProxy.js:44-103 | with an agent: the configuration's endpoint, the agent's key when set else the configuration's, the messages with the agent's prompt, the merged sampling; the caller's messages differ exactly when the prompt is put in front |
| LlmProxy.ModelForward | src/services/llmProxy.js:79-103 | without an agent: the configuration's endpoint and key, the messages with the model's prefix (the caller's own), the client's sampling |
| LlmProxy.ForwardAsAgent | src/services/llmProxy.js:40-78 | with an agent, the call and the caller's messages are those `Proxy` specifies: the agent's prompt, sampling overrides and, when set, its API key |
| LlmProxy.ForwardAsModel | src/services/llmProxy.js:79-103 | without an agent, the call and the caller's messages are those `Proxy` specifies: the model's prefix on the caller's messages and the configuration's key |
| LlmProxy.ApplyAgentPrompt | src/services/llmProxy.js:44-60 | the messages sent are `WithAgentPrompt` of the old ones; the caller's array changes only when a system message is put in front |
| LlmProxy.ApplyModelPrompt | src/services/llmProxy.js:83-95 | the caller's messages become `WithModelPrompt` of the old ones |
| LlmProxy.ApplySampling | src/services/llmProxy.js:63-73 | the three assignments give `MergeSampling` |
| LlmProxy.PromptInFront | src/services/llmProxy.js:55-58 | with no system message, the adapted list is the agent's prompt in front of the old messages |
| LlmProxy.SomeSystem | src/services/llmProxy.js:46 | `some` is true exactly when some message has the system role |
| LlmProxy.ReplaceSystem | src/services/llmProxy.js:47-52 | `map` gives `WithAgentPrompt` of the messages, with new objects for the system messages and the caller's objects for the others |
| LlmProxy.SameUserContents | src/services/llmProxy.js:11-15 | lists that agree on every user message have the same user contents |
| LlmProxy.SystemInFrontKeepsUserContents | src/services/llmProxy.js:11-15 | a system message in front changes no user content |
| LlmProxy.AgentPromptKeepsUserText | src/services/llmProxy.js:44-60 | the agent's prompt leaves the user contents unchanged |
| LlmProxy.ModelPromptKeepsUserText | src/services/llmProxy.js:83-95 | the model's prefix leaves the user contents unchanged |
| LlmProxy.ForwardKeepsUserText | src/services/llmProxy.js:11-95 | the forwarded call has the same user text as the one the agent was chosen for |
| LlmProxy.AgentPromptIdempotent | src/services/llmProxy.js:44-60 | applying an agent's prompt twice gives the same messages as once |
| LlmProxy.ForwardTarget | src/services/llmProxy.js:21-34 | the call goes to a stored configuration of the agent's model (or the requested one), with the agent's key if it has one, else the configuration's key |
| LlmProxy.CallerSeesAdaptation | src/services/llmProxy.js:37-95 | the caller's messages change exactly when a system message is put in front or the first one gets the model's prefix |
| Auth.SpaceRunEnd | src/middleware/auth.js:26 | the end of a maximal run of `\s` characters |
| Auth.BearerKey | src/middleware/auth.js:26-31 | `match[1]` is null exactly when the pattern cannot match; otherwise it is the capture of the match whose capture starts last, non-empty and free of line terminators |
| Auth.ParseBounds | src/middleware/auth.js:26 | every match uses at most the full white-space run, and takes "sk-" only after all of it |
| Auth.ParsesHaveShape | src/middleware/auth.js:26 | every match starts with "Bearer", a white-space run and a rest free of line terminators |
| Auth.LastParse | src/middleware/auth.js:26 | the match found by scanning is the one whose capture starts last |
| Auth.ApiAuth | src/middleware/auth.js:10-39 | passes exactly when no key is configured or the extracted key equals it; "Missing API key in Authorization header", "Invalid Authorization header format" and "Invalid API key" each exactly in its own case |
| Auth.AdminAuth | src/middleware/auth.js:42-71 | passes exactly when logged in or a bearer key equals `API_KEY`; otherwise 401 exactly for API, XHR or JSON requests, else the login redirect |
| Auth.NoKeyConfigured | src/middleware/auth.js:13-16 | without `API_KEY` every API request passes, while the admin check needs a session |
| Auth.SkPrefixIsOptional | src/middleware/auth.js:24-29 | `Bearer <key>` and `Bearer sk-<key>` both give `<key>` |
| Auth.SkKeyAsSentIsRejected | src/middleware/auth.js:24-38 | a configured key starting with "sk-" is rejected when sent as it is |
| Setup.SampleModels | src/setup.js:12-64 | reference definition of the three sample models, with `DEFAULT_BASE_URL`, `DEFAULT_API_KEY \|\| OPENAI_API_KEY` and `ANTHROPIC_API_KEY` put in; `Setup.ModelSamplesWellFormed` states their keys and default |
| Setup.Upsert | src/setup.js:161-173 | reference definition of one loop step: `update` when the snapshot has the sample's key, the service's create otherwise |
| Setup.Seeded | src/setup.js:155-190 | reference definition of the table after a seeding loop over the snapshot; `Setup.SeededKeys`, `Setup.SeededSettlesSamples` and `Setup.SeededEmpty` state what it guarantees |
| Setup.SeedTable | src/setup.js:161-190 | the seeding loop leaves the table as `Seeded` of the snapshot: update when the snapshot has the key, create otherwise |
| Setup.AdminTable.constructor | src/setup.js:197 | the administrator table with its records |
| Setup.AdminTable.Create | src/setup.js:202-207 | `admin.create` appends the record |
| Setup.InitializeSystem | src/setup.js:127-219 | a failed probe returns the migration message and changes nothing; otherwise the optional clearing, both seedings of the sample records, and the default administrator only when there is none |
| Setup.Initialize | src/setup.js:127-219 | the same steps for any sample records and administrator: both tables become `Seeded` of their old (or, when clearing, empty) rows, and the administrator is added only to an empty table |
| Setup.DefaultAdmin | src/setup.js:193-201 | the username is `ADMIN_USERNAME` when set and non-empty, and is never empty |
| Setup.ModelSamplesWellFormed | src/setup.js:12-64 | the sample models have distinct keys and one default, "gpt-4" |
| Setup.AgentSamplesWellFormed | src/setup.js:67-124 | the sample agents have distinct keys and one default, "general-assistant" |
| Setup.SeededEmpty | src/setup.js:161-190 | seeding an empty table stores samples with distinct keys and at most one default as given, in order |
| Setup.ReseedChangesNothing | src/setup.js:161-190 | seeding samples already stored as they are changes nothing |
| Setup.UpdateToSameRecord | src/setup.js:164-170 | an `update` whose data leaves the stored record as it is changes no record |
| Setup.ModelOverwriteKeepsRecord | src/setup.js:166-169 | `update({ data: config })` on the record equal to `config` leaves it as it is |
| Setup.AgentOverwriteKeepsRecord | src/setup.js:182-185 | `update({ data: agent })` on the record equal to `agent` leaves it as it is |
| Setup.FreshSeeding | src/setup.js:161-190 | well-formed samples seeded into an empty table are stored as given, and seeding them again changes nothing |
| Setup.FreshSetupStoresModels | src/setup.js:146-174 | a clearing run leaves exactly the sample models with "gpt-4" as the default; a second run without clearing leaves the model table as it is |
| Setup.FreshSetupStoresAgents | src/setup.js:146-190 | a clearing run leaves exactly the sample agents with "general-assistant" as the default; a second run without clearing leaves the agent table as it is |
| Setup.SeededSettlesSamples | src/setup.js:161-190 | seeding any table leaves every record with a sample's key as that sample's update would leave it, for samples with distinct keys and one default whose updates are idempotent |
| Setup.UpdatedSampleSettles | src/setup.js:164-170 | an `update` with a sample settles the records with its key and leaves the others |
| Setup.CreatedSampleSettles | src/setup.js:171-173 | creating a new sample appends it settled, and its default flag unflags no other sample's record |
| Setup.ModelOverwriteSettles | src/setup.js:166-169 | `update({ data: config })` leaves a record as it is exactly when the record has every column `config` gives, and gives any record those columns |
| Setup.AgentOverwriteSettles | src/setup.js:182-185 | `update({ data: agent })` leaves a record as it is exactly when the record has every column `agent` gives, and gives any record those columns |
| Setup.ReseedStoresSampleModels | src/setup.js:155-174 | without clearing, over any model table: the keys become the old ones plus the sample keys, and every record with a sample's key has every column the sample gives (an unset API key aside) |
| Setup.ReseedStoresSampleAgents | src/setup.js:155-190 | without clearing, over any agent table: the keys become the old ones plus the sample keys, and every record with a sample's key has every column the sample gives |
| Setup.SeededKeys | src/setup.js:161-190 | seeding adds exactly the sample keys to the keys already present |
| Setup.UpsertDefaults | src/setup.js:165-173 | the update path leaves every other record alone, default flags included; the create path leaves the new default as the only one |
| Setup.ReseedCanLeaveTwoDefaults | src/setup.js:177-190 | re-seeding after another agent became the default leaves two default agents |

## Left out

- Network I/O, the event-stream bytes and `response.body.pipe(res)` are not modelled. Upstream answers are parameters (`ClassifierReply`, `Upstream`), and a relayed stream is its body text.
- Logging (`console.log`, `chalk`) is left out.
- Environment variables (`process.env`, `dotenv`) are records of nullable strings.
- `bcrypt.hash` is a parameter `hash`.
- The database is a value or a `Table` object. Each awaited query is its answer or its error. Concurrent requests and transaction atomicity are not modelled.
- Errors thrown by the seeding queries are left out. In the model the update and create of a sample succeed. `SeedTable` and `InitializeSystem` do not model the rethrow at src/setup.js:214-218.
- `routes.js` is not part of this model. The `modelId` it passes to the proxy is a parameter, `None` when `selectModel` returned `undefined`. `findUnique` then throws Prisma's validation error, whose message is the parameter `keylessError`.
- AgentService.UpdateAgent: a patch cannot change the key. `PUT /api/agents/:agentId` passes the whole body, so an `agentId` in it renames the record, and a rename onto a taken key fails on the unique constraint. Neither is modelled.
- ModelConfigService.UpdateModelConfig: a patch cannot change the key. `PUT /api/models/:modelId` passes the whole body, so a `modelId` in it renames the record, and a rename onto a taken key fails on the unique constraint. Neither is modelled.
- Fields of the client's request body other than `model`, `messages`, `temperature`, `top_p`, `max_tokens` and `stream` (`n`, `stop`, `tools`, …) are not modelled. `{ ...requestData }` copies them and `JSON.stringify` forwards them unchanged.
- Message contents are strings. Non-string content, and `choices[0].message.content` that is not a string, become a failed selector call (`Failed`).
- `stream` values other than `true` count as not streaming, as `=== true` does.
- Agent and model `description` and `capabilities` are treated as non-null strings in the prompts.
- `include: { modelConfig: true }` adds a related record that nothing in the core reads, so it is left out.
- Characters are Dafny `char`s. The `i` flag is modelled for ASCII letters, the only cased letters in "Bearer" and "sk-".
- `AgentSelector.AgentPrompt` and `ModelSelector.ModelPrompt` are stated through `SelectAgent` and `SelectModelWithTemplate`. No lemma states which characters the fixed template text contains.

## Findings

| source | as written | input that shows it | evidently intended | confidence | as-written member | corrected member |
|---|---|---|---|---|---|---|
| src/services/modelSelector.js:49-52 | the prompt is built from `SELECTOR_PROMPT_TEMPLATE`, a name the module never defines, so with two or more active models a `ReferenceError` sends every request to the `catch` block, which returns the default model | active "gpt-4" (default) and "claude-3-opus", selector answering "claude-3-opus": "gpt-4" is chosen | build the prompt from `DEFAULT_PROMPT_TEMPLATE` (lines 13-22) and honour the selector's answer | high; not executed | ModelSelector.SelectModel, ModelSelector.SelectorIgnoredExample | ModelSelector.SelectModelWithTemplate, ModelSelector.SelectorAnswerIsHonoured |

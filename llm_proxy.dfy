/** `llmProxy.js`: adapting a chat-completion request to the chosen agent or model and
    forwarding it upstream. The request body's `messages` array and its message objects are
    the caller's own: the shallow copy `{ ...requestData }` shares them, so `unshift` and the
    in-place rewrite of the first message change the caller's request too. */
module LlmProxy {
  import opened Wrappers
  import opened Text
  import opened Catalog
  import opened AgentService
  import opened ModelConfigService
  import opened Chat
  import opened AgentSelector

  /** One message object of the request body. */
  class Message {
    var role: string
    var content: string

    constructor (role: string, content: string)
      ensures this.role == role && this.content == content
    {
      this.role := role;
      this.content := content;
    }
  }

  /** The request body's `messages` array. */
  class MessageArray {
    var items: seq<Message>

    constructor (items: seq<Message>)
      ensures this.items == items
    {
      this.items := items;
    }

    /** `Array.prototype.unshift` with one element. */
    method Unshift(m: Message)
      modifies this
      ensures items == [m] + old(items)
    {
      items := [m] + items;
    }
  }

  /** The sampling parameters of a request body: `temperature`, `top_p`, `max_tokens`. */
  datatype Sampling = Sampling(temperature: Field<real>, topP: Field<real>, maxTokens: Field<int>)

  /** The request body (`requestData`). A `stream` that is not a boolean counts as not
      `true`, like `Present(false)`. */
  datatype ChatRequest = ChatRequest(
    model: Field<string>, messages: Field<MessageArray>, sampling: Sampling, stream: Field<bool>)

  /** The same request as a value, with its messages read out of the heap. */
  datatype RequestValue = RequestValue(
    model: Field<string>, messages: Field<seq<ChatMessage>>, sampling: Sampling, stream: Field<bool>)

  function View(ms: seq<Message>): (r: seq<ChatMessage>)
    reads ms
    ensures |r| == |ms|
    ensures forall i :: 0 <= i < |ms| ==> r[i] == ChatMessage(ms[i].role, ms[i].content)
  {
    seq(|ms|, i reads ms requires 0 <= i < |ms| => ChatMessage(ms[i].role, ms[i].content))
  }

  function Messages(req: ChatRequest): Field<seq<ChatMessage>>
    reads if req.messages.Present? then {req.messages.value} else {}
    reads if req.messages.Present? then req.messages.value.items else []
  {
    match req.messages
    case Undefined => Undefined
    case Null => Null
    case Present(a) => Present(View(a.items))
  }

  function ValueOf(req: ChatRequest): RequestValue
    reads if req.messages.Present? then {req.messages.value} else {}
    reads if req.messages.Present? then req.messages.value.items else []
  {
    RequestValue(req.model, Messages(req), req.sampling, req.stream)
  }

  /** The contents of the user messages, in order. */
  function UserContents(ms: seq<ChatMessage>): seq<string>
  {
    if ms == [] then []
    else (if ms[0].role == "user" then [ms[0].content] else []) + UserContents(ms[1..])
  }

  /** The text the agent selector sees: the user messages' contents joined by newlines;
      no messages at all count as none. */
  function UserText(ms: Field<seq<ChatMessage>>): string
  {
    Join(UserContents(if ms.Present? then ms.value else []), "\n")
  }

  predicate HasSystem(ms: seq<ChatMessage>)
  {
    exists i :: 0 <= i < |ms| && ms[i].role == "system"
  }

  /** An agent's system prompt: it replaces the content of every system message, or comes in
      front as a new system message when there is none. */
  function WithAgentPrompt(ms: seq<ChatMessage>, prompt: string): (r: seq<ChatMessage>)
    ensures HasSystem(r)
    ensures forall i :: 0 <= i < |r| && r[i].role == "system" ==> r[i].content == prompt
    ensures HasSystem(ms) ==> |r| == |ms| && forall i :: 0 <= i < |ms| && ms[i].role != "system" ==> r[i] == ms[i]
    ensures HasSystem(ms) ==> forall i :: 0 <= i < |ms| && ms[i].role == "system" ==> r[i] == ChatMessage("system", prompt)
    ensures !HasSystem(ms) ==> r[1..] == ms
  {
    if HasSystem(ms) then
      var r := seq(|ms|, i requires 0 <= i < |ms| => if ms[i].role == "system" then ChatMessage("system", prompt) else ms[i]);
      assert r[0].role == "system" || r[0] == ms[0];
      var i :| 0 <= i < |ms| && ms[i].role == "system";
      assert r[i].role == "system";
      r
    else
      var r := [ChatMessage("system", prompt)] + ms;
      assert r[0].role == "system";
      r
  }

  /** A model's prompt prefix when no agent was chosen: a first system message gets
      `prefix + "\n\n" + content`; otherwise the prefix comes in front as a new system message. */
  function WithModelPrompt(ms: seq<ChatMessage>, prefix: string): (r: seq<ChatMessage>)
    ensures |r| > 0 && r[0].role == "system"
    ensures |ms| > 0 && ms[0].role == "system" ==>
      |r| == |ms| && r[1..] == ms[1..] && r[0].content == prefix + "\n\n" + ms[0].content
    ensures !(|ms| > 0 && ms[0].role == "system") ==> r == [ChatMessage("system", prefix)] + ms
  {
    if |ms| > 0 && ms[0].role == "system" then ms[0 := ChatMessage("system", prefix + "\n\n" + ms[0].content)]
    else [ChatMessage("system", prefix)] + ms
  }

  /** An agent's sampling overrides: temperature and top-p whenever the agent's field is not
      `undefined` (a null column is copied as null), max tokens only when it is a positive
      number. */
  function MergeSampling(s: Sampling, a: AgentFields): (r: Sampling)
    ensures r.temperature == if a.temperature.Undefined? then s.temperature else a.temperature
    ensures r.topP == if a.topP.Undefined? then s.topP else a.topP
    ensures r.maxTokens == if a.maxTokens.Present? && a.maxTokens.value > 0 then a.maxTokens else s.maxTokens
  {
    Sampling(
      AssignField(s.temperature, a.temperature),
      AssignField(s.topP, a.topP),
      if a.maxTokens.Present? && a.maxTokens.value > 0 then a.maxTokens else s.maxTokens)
  }

  /** The forwarded POST: URL, `Authorization` header and body. */
  datatype ForwardCall = ForwardCall(
    url: string, authorization: string, model: Field<string>, messages: Field<seq<ChatMessage>>,
    sampling: Sampling, stream: Field<bool>)

  /** What the upstream does with the forwarded call: the transport fails, or it answers a
      status and a body, which `response.json()` may fail to parse. */
  datatype Parsed = Json(data: string) | NotJson(message: string)
  datatype Upstream = Unreachable(message: string) | Answered(status: int, text: string, json: Parsed)

  /** The response sent back: a JSON body with a status, or the upstream's event stream. */
  datatype ReplyBody = ErrorBody(error: string) | Payload(data: string)
  datatype Reply = JsonReply(status: int, body: ReplyBody) | EventStream(headers: seq<(string, string)>, relayed: string)

  const StreamHeaders: seq<(string, string)> :=
    [("Content-Type", "text/event-stream"), ("Cache-Control", "no-cache"), ("Connection", "keep-alive")]

  /** Relaying the upstream's answer: a status outside 200-299 goes back with the body text
      wrapped as `{ error }`, in both modes; a success is piped through as an event stream or
      parsed and returned as JSON; a thrown error becomes a 500. */
  function Relay(stream: bool, up: Upstream): (r: Reply)
    ensures up.Unreachable? ==> r == JsonReply(500, ErrorBody(up.message))
    ensures up.Answered? && !(200 <= up.status <= 299) ==> r == JsonReply(up.status, ErrorBody(up.text))
    ensures r.EventStream? <==> stream && up.Answered? && 200 <= up.status <= 299
    ensures r.EventStream? ==> r.headers == StreamHeaders && r.relayed == up.text
    ensures r.JsonReply? && r.body.Payload? ==> r.status == 200 && up.Answered? && up.json == Json(r.body.data)
    ensures up.Answered? && 200 <= up.status <= 299 && !stream ==>
      r == match up.json case Json(d) => JsonReply(200, Payload(d)) case NotJson(m) => JsonReply(500, ErrorBody(m))
  {
    match up
    case Unreachable(m) => JsonReply(500, ErrorBody(m))
    case Answered(status, text, json) =>
      if !(200 <= status <= 299) then JsonReply(status, ErrorBody(text))
      else if stream then EventStream(StreamHeaders, text)
      else match json
        case Json(d) => JsonReply(200, Payload(d))
        case NotJson(m) => JsonReply(500, ErrorBody(m))
  }

  /** The message of the `TypeError` thrown when an agent's prompt meets a request without a
      `messages` array. */
  function NoMessagesError(ms: Field<seq<ChatMessage>>): string
  {
    "Cannot read properties of " + (if ms.Null? then "null" else "undefined") + " (reading 'some')"
  }

  /** The model id looked up: the agent's model when it names one, else the requested id,
      which is `undefined` (`None`) when `selectModel` passed on an unset `DEFAULT_MODEL_ID`. */
  function TargetModel(modelId: Option<string>, agent: Option<Agent>): Option<string>
  {
    if agent.Some? && Truthy(agent.value.data.modelId) then agent.value.data.modelId else modelId
  }

  /** The forwarded call (if one is made), the reply, and the messages the caller's request
      holds afterwards. */
  datatype ProxyOutcome = ProxyOutcome(forward: Option<ForwardCall>, reply: Reply, callerMessages: Field<seq<ChatMessage>>)

  /** What `proxyLLMRequest` does once the agent is chosen. `models` answers the model lookup:
      the table's rows, or the error the query threw. `findUnique` without a key throws
      before reaching the table; `keylessError` is the message Prisma gives it. */
  function Proxy(
    modelId: Option<string>, req: RequestValue, agent: Option<Agent>, models: Fetch<seq<ModelConfig>>, up: Upstream,
    keylessError: string): (r: ProxyOutcome)
    ensures TargetModel(modelId, agent).None? ==>
      r == ProxyOutcome(None, JsonReply(500, ErrorBody(keylessError)), req.messages)
    ensures TargetModel(modelId, agent).Some? && models.DbError? ==>
      r == ProxyOutcome(None, JsonReply(500, ErrorBody(models.message)), req.messages)
    ensures TargetModel(modelId, agent).Some? && models.Fetched? && TargetModel(modelId, agent).value !in Keys(models.value) ==>
      r == ProxyOutcome(None, JsonReply(404, ErrorBody("Model configuration not found")), req.messages)
    ensures r.forward.None? ==> r.callerMessages == req.messages
    ensures
      && TargetModel(modelId, agent).Some? && models.Fetched? && TargetModel(modelId, agent).value in Keys(models.value)
      && agent.Some? && Truthy(agent.value.data.systemPrompt) && !req.messages.Present? ==>
      r == ProxyOutcome(None, JsonReply(500, ErrorBody(NoMessagesError(req.messages))), req.messages)
    ensures r.forward.Some? <==>
      && TargetModel(modelId, agent).Some?
      && models.Fetched?
      && TargetModel(modelId, agent).value in Keys(models.value)
      && !(agent.Some? && Truthy(agent.value.data.systemPrompt) && !req.messages.Present?)
    ensures r.forward.Some? ==> r.reply == Relay(req.stream == Present(true), up)
    ensures r.forward.Some? ==> r.forward.value.model == req.model && r.forward.value.stream == req.stream
    ensures r.forward.Some? && agent.Some? ==>
      var prompt := agent.value.data.systemPrompt;
      && r.forward.value.messages == (if Truthy(prompt) then Present(WithAgentPrompt(req.messages.value, prompt.value)) else req.messages)
      && r.forward.value.sampling == MergeSampling(req.sampling, agent.value.data)
      && r.callerMessages == (if Truthy(prompt) && !HasSystem(req.messages.value) then r.forward.value.messages else req.messages)
    ensures r.forward.Some? && agent.None? ==>
      var prefix := FindByKey(models.value, modelId.value).value.data.prompt;
      && r.forward.value.messages == (if Truthy(prefix) && req.messages.Present? then Present(WithModelPrompt(req.messages.value, prefix.value)) else req.messages)
      && r.forward.value.sampling == req.sampling
      && r.callerMessages == r.forward.value.messages
  {
    match TargetModel(modelId, agent)
    case None => ProxyOutcome(None, JsonReply(500, ErrorBody(keylessError)), req.messages)
    case Some(target) =>
      match models
      case DbError(m) => ProxyOutcome(None, JsonReply(500, ErrorBody(m)), req.messages)
      case Fetched(rows) =>
        match FindByKey(rows, target)
        case None => ProxyOutcome(None, JsonReply(404, ErrorBody("Model configuration not found")), req.messages)
        case Some(config) =>
          if agent.Some? && Truthy(agent.value.data.systemPrompt) && !req.messages.Present? then
            ProxyOutcome(None, JsonReply(500, ErrorBody(NoMessagesError(req.messages))), req.messages)
          else
            var (call, caller) := if agent.Some? then AgentForward(req, agent.value.data, config) else ModelForward(req, config);
            ProxyOutcome(Some(call), Relay(req.stream == Present(true), up), caller)
  }

  /** Lines 44-78 and 99-103 with an agent: the call forwarded to `config`, and the messages
      the caller's request holds afterwards. `map` builds a new array, `unshift` changes the
      caller's own. */
  function AgentForward(req: RequestValue, a: AgentFields, config: ModelConfig): (out: (ForwardCall, Field<seq<ChatMessage>>))
    requires Truthy(a.systemPrompt) ==> req.messages.Present?
    ensures out.0.url == Endpoint(config.data.baseUrl)
    ensures out.0.authorization == "Bearer " + Render(if Truthy(a.apiKey) then a.apiKey else config.data.apiKey, "null")
    ensures out.0.model == req.model && out.0.stream == req.stream
    ensures out.0.messages == if Truthy(a.systemPrompt) then Present(WithAgentPrompt(req.messages.value, a.systemPrompt.value)) else req.messages
    ensures out.0.sampling == MergeSampling(req.sampling, a)
    ensures out.1 != req.messages <==> Truthy(a.systemPrompt) && !HasSystem(req.messages.value)
    ensures out.1 == req.messages || out.1 == out.0.messages
  {
    var sent := if Truthy(a.systemPrompt) then Present(WithAgentPrompt(req.messages.value, a.systemPrompt.value)) else req.messages;
    var caller := if Truthy(a.systemPrompt) && !HasSystem(req.messages.value) then sent else req.messages;
    var key := if Truthy(a.apiKey) then a.apiKey else config.data.apiKey;
    assert Truthy(a.systemPrompt) && !HasSystem(req.messages.value) ==> |sent.value| == |req.messages.value| + 1;
    (ForwardCall(Endpoint(config.data.baseUrl), "Bearer " + Render(key, "null"), req.model, sent,
                 MergeSampling(req.sampling, a), req.stream),
     caller)
  }

  /** Lines 82-103 without an agent: the model's prompt prefix goes into the caller's own
      messages, which are also the ones sent. */
  function ModelForward(req: RequestValue, config: ModelConfig): (out: (ForwardCall, Field<seq<ChatMessage>>))
    ensures out.0.url == Endpoint(config.data.baseUrl)
    ensures out.0.authorization == "Bearer " + Render(config.data.apiKey, "null")
    ensures out.0.model == req.model && out.0.stream == req.stream && out.0.sampling == req.sampling
    ensures out.0.messages == if Truthy(config.data.prompt) && req.messages.Present? then
      Present(WithModelPrompt(req.messages.value, config.data.prompt.value)) else req.messages
    ensures out.1 == out.0.messages
  {
    var prefix := config.data.prompt;
    var sent := if Truthy(prefix) && req.messages.Present? then Present(WithModelPrompt(req.messages.value, prefix.value)) else req.messages;
    (ForwardCall(Endpoint(config.data.baseUrl), "Bearer " + Render(config.data.apiKey, "null"), req.model, sent,
                 req.sampling, req.stream),
     sent)
  }

  /** `proxyLLMRequest(modelId, requestData, res)`. The agent selection's inputs are passed
      through to `SelectAgent`; `models` and `up` answer the model lookup and the forwarded
      call. The message objects of a parsed JSON body are distinct. */
  method ProxyLLMRequest(
    modelId: Option<string>, req: ChatRequest,
    selectorCfg: SelectorConfig, agentListing: Fetch<seq<Agent>>, classify: SelectorCall -> ClassifierReply,
    firstDefault: Fetch<Option<Agent>>, secondDefault: Fetch<Option<Agent>>,
    models: Fetch<seq<ModelConfig>>, up: Upstream, keylessError: string)
    returns (selection: AgentSelection, forward: Option<ForwardCall>, reply: Reply)
    requires req.messages.Present? ==>
      forall i, j :: 0 <= i < j < |req.messages.value.items| ==> req.messages.value.items[i] != req.messages.value.items[j]
    modifies if req.messages.Present? then {req.messages.value} else {}
    modifies if req.messages.Present? then req.messages.value.items else []
    ensures selection == SelectAgent(selectorCfg, UserText(old(Messages(req))), agentListing, classify, firstDefault, secondDefault)
    ensures var out := Proxy(modelId, old(ValueOf(req)), selection.agent, models, up, keylessError);
      forward == out.forward && reply == out.reply && Messages(req) == out.callerMessages
  {
    var userText := UserText(Messages(req));
    selection := SelectAgent(selectorCfg, userText, agentListing, classify, firstDefault, secondDefault);
    var agent := selection.agent;
    ghost var out := Proxy(modelId, ValueOf(req), agent, models, up, keylessError);
    var target := TargetModel(modelId, agent);
    if target.None? {
      return selection, None, JsonReply(500, ErrorBody(keylessError));
    }
    if models.DbError? {
      return selection, None, JsonReply(500, ErrorBody(models.message));
    }
    var found := FindByKey(models.value, target.value);
    if found.None? {
      return selection, None, JsonReply(404, ErrorBody("Model configuration not found"));
    }
    if agent.Some? && Truthy(agent.value.data.systemPrompt) && !req.messages.Present? {
      return selection, None, JsonReply(500, ErrorBody(NoMessagesError(Messages(req))));
    }
    var call: ForwardCall;
    if agent.Some? {
      call := ForwardAsAgent(req, agent.value.data, found.value);
    } else {
      call := ForwardAsModel(req, found.value);
    }
    forward := Some(call);
    reply := Relay(req.stream == Present(true), up);
  }

  /** Lines 40-78 and 99-103: the agent's prompt, sampling overrides and API key. */
  method ForwardAsAgent(req: ChatRequest, a: AgentFields, config: ModelConfig) returns (call: ForwardCall)
    requires Truthy(a.systemPrompt) ==> req.messages.Present?
    modifies if req.messages.Present? then {req.messages.value} else {}
    ensures var out := AgentForward(old(ValueOf(req)), a, config);
      call == out.0 && Messages(req) == out.1
  {
    var sent: Field<seq<ChatMessage>> := Messages(req);
    if Truthy(a.systemPrompt) {
      var adapted := ApplyAgentPrompt(req.messages.value, a.systemPrompt.value);
      sent := Present(adapted);
    }
    var sampling := ApplySampling(req.sampling, a);
    var target := config;
    if Truthy(a.apiKey) {
      target := target.(data := target.data.(apiKey := a.apiKey));
    }
    call := ForwardCall(Endpoint(target.data.baseUrl), "Bearer " + Render(target.data.apiKey, "null"), req.model, sent,
                        sampling, req.stream);
  }

  /** Lines 79-103: the model's prompt prefix on the caller's messages. */
  method ForwardAsModel(req: ChatRequest, config: ModelConfig) returns (call: ForwardCall)
    requires req.messages.Present? ==>
      forall i, j :: 0 <= i < j < |req.messages.value.items| ==> req.messages.value.items[i] != req.messages.value.items[j]
    modifies if req.messages.Present? then {req.messages.value} else {}
    modifies if req.messages.Present? then req.messages.value.items else []
    ensures var out := ModelForward(old(ValueOf(req)), config);
      call == out.0 && Messages(req) == out.1
  {
    var prefix := config.data.prompt;
    if Truthy(prefix) && req.messages.Present? {
      ApplyModelPrompt(req.messages.value, prefix.value);
    }
    call := ForwardCall(Endpoint(config.data.baseUrl), "Bearer " + Render(config.data.apiKey, "null"), req.model, Messages(req),
                        req.sampling, req.stream);
  }

  /** Lines 44-60: the agent's prompt on the shared `messages` array. `sent` is what the
      forwarded request carries; the caller's array changes only by the `unshift`. */
  method ApplyAgentPrompt(arr: MessageArray, prompt: string) returns (sent: seq<ChatMessage>)
    modifies arr
    ensures sent == WithAgentPrompt(old(View(arr.items)), prompt)
    ensures View(arr.items) == if HasSystem(old(View(arr.items))) then old(View(arr.items)) else sent
  {
    var hasSystem := SomeSystem(arr);
    if hasSystem {
      var mapped := ReplaceSystem(arr.items, prompt);
      sent := View(mapped);
    } else {
      ghost var before := View(arr.items);
      var m := new Message("system", prompt);
      arr.Unshift(m);
      sent := View(arr.items);
      assert sent == [ChatMessage("system", prompt)] + before;
      PromptInFront(before, prompt);
    }
  }

  /** Without a system message, the agent's prompt comes in front of the messages. */
  lemma PromptInFront(ms: seq<ChatMessage>, prompt: string)
    requires !HasSystem(ms)
    ensures WithAgentPrompt(ms, prompt) == [ChatMessage("system", prompt)] + ms
  {
  }

  /** Lines 83-95: the model's prompt prefix, written into the caller's first message object
      or `unshift`ed onto the caller's array. */
  method ApplyModelPrompt(arr: MessageArray, prefix: string)
    requires forall i, j :: 0 <= i < j < |arr.items| ==> arr.items[i] != arr.items[j]
    modifies arr, arr.items
    ensures View(arr.items) == WithModelPrompt(old(View(arr.items)), prefix)
  {
    ghost var before := View(arr.items);
    if |arr.items| > 0 && arr.items[0].role == "system" {
      var first := arr.items[0];
      first.content := prefix + "\n\n" + first.content;
      assert View(arr.items) == WithModelPrompt(before, prefix);
    } else {
      var m := new Message("system", prefix);
      arr.Unshift(m);
      assert View(arr.items) == [ChatMessage("system", prefix)] + before;
    }
  }

  /** Lines 63-73: the agent's sampling overrides, assigned one field after another. */
  method ApplySampling(s: Sampling, a: AgentFields) returns (r: Sampling)
    ensures r == MergeSampling(s, a)
  {
    r := s;
    if !a.temperature.Undefined? {
      r := r.(temperature := a.temperature);
    }
    if !a.topP.Undefined? {
      r := r.(topP := a.topP);
    }
    if a.maxTokens.Present? && a.maxTokens.value > 0 {
      r := r.(maxTokens := a.maxTokens);
    }
  }

  /** `messages.some(msg => msg.role === 'system')`. */
  method SomeSystem(arr: MessageArray) returns (b: bool)
    ensures b <==> HasSystem(View(arr.items))
  {
    var i := 0;
    while i < |arr.items|
      invariant 0 <= i <= |arr.items|
      invariant forall k :: 0 <= k < i ==> arr.items[k].role != "system"
    {
      if arr.items[i].role == "system" {
        return true;
      }
      i := i + 1;
    }
    return false;
  }

  /** `messages.map(...)` replacing each system message by a new one carrying `prompt`. The
      original message objects are left as they are. */
  method ReplaceSystem(items: seq<Message>, prompt: string) returns (mapped: seq<Message>)
    requires HasSystem(View(items))
    ensures View(mapped) == WithAgentPrompt(View(items), prompt)
    ensures forall k :: 0 <= k < |mapped| ==> fresh(mapped[k]) || mapped[k] in items
  {
    mapped := [];
    for j := 0 to |items|
      invariant |mapped| == j
      invariant forall k :: 0 <= k < j ==>
        if items[k].role == "system" then fresh(mapped[k]) && mapped[k].role == "system" && mapped[k].content == prompt
        else mapped[k] == items[k]
    {
      if items[j].role == "system" {
        var m := new Message("system", prompt);
        mapped := mapped + [m];
      } else {
        mapped := mapped + [items[j]];
      }
    }
  }

  /** Two message lists that agree wherever either has a user message have the same user
      contents. */
  lemma {:induction false} SameUserContents(a: seq<ChatMessage>, b: seq<ChatMessage>)
    requires |a| == |b|
    requires forall i :: 0 <= i < |a| && (a[i].role == "user" || b[i].role == "user") ==> a[i] == b[i]
    ensures UserContents(a) == UserContents(b)
  {
    if a != [] {
      SameUserContents(a[1..], b[1..]);
    }
  }

  /** A system message in front does not change the user contents. */
  lemma SystemInFrontKeepsUserContents(m: ChatMessage, ms: seq<ChatMessage>)
    requires m.role == "system"
    ensures UserContents([m] + ms) == UserContents(ms)
  {
    assert ([m] + ms)[1..] == ms;
  }

  /** An agent's system prompt leaves the user messages as they were. */
  lemma AgentPromptKeepsUserText(ms: seq<ChatMessage>, prompt: string)
    ensures UserContents(WithAgentPrompt(ms, prompt)) == UserContents(ms)
  {
    if HasSystem(ms) {
      SameUserContents(ms, WithAgentPrompt(ms, prompt));
    } else {
      SystemInFrontKeepsUserContents(ChatMessage("system", prompt), ms);
    }
  }

  /** A model's prompt prefix leaves the user messages as they were. */
  lemma ModelPromptKeepsUserText(ms: seq<ChatMessage>, prefix: string)
    ensures UserContents(WithModelPrompt(ms, prefix)) == UserContents(ms)
  {
    if |ms| > 0 && ms[0].role == "system" {
      SameUserContents(ms, WithModelPrompt(ms, prefix));
    } else {
      SystemInFrontKeepsUserContents(ChatMessage("system", prefix), ms);
    }
  }

  /** The forwarded call carries the same user text the agent was chosen for. */
  lemma ForwardKeepsUserText(
    modelId: Option<string>, req: RequestValue, agent: Option<Agent>, models: Fetch<seq<ModelConfig>>, up: Upstream, keylessError: string)
    ensures var out := Proxy(modelId, req, agent, models, up, keylessError);
      out.forward.Some? ==> UserText(out.forward.value.messages) == UserText(req.messages)
  {
    var out := Proxy(modelId, req, agent, models, up, keylessError);
    if out.forward.Some? && req.messages.Present? {
      var config := FindByKey(models.value, TargetModel(modelId, agent).value).value;
      if agent.Some? && Truthy(agent.value.data.systemPrompt) {
        AgentPromptKeepsUserText(req.messages.value, agent.value.data.systemPrompt.value);
      } else if agent.None? && Truthy(config.data.prompt) {
        ModelPromptKeepsUserText(req.messages.value, config.data.prompt.value);
      }
    }
  }

  /** Adapting an already adapted message list to the same agent changes nothing more. */
  lemma AgentPromptIdempotent(ms: seq<ChatMessage>, prompt: string)
    ensures WithAgentPrompt(WithAgentPrompt(ms, prompt), prompt) == WithAgentPrompt(ms, prompt)
  {
    var once := WithAgentPrompt(ms, prompt);
    var twice := WithAgentPrompt(once, prompt);
    assert |twice| == |once|;
    forall i | 0 <= i < |once| ensures twice[i] == once[i] {
      if once[i].role == "system" {
        assert once[i] == ChatMessage("system", prompt);
      }
    }
  }

  /** The forwarded call goes to a stored configuration of the agent's model when the agent
      names one, else of the requested model, using the agent's own key if it has one and
      the configuration's key otherwise. */
  lemma ForwardTarget(
    modelId: Option<string>, req: RequestValue, agent: Option<Agent>, rows: seq<ModelConfig>, up: Upstream, keylessError: string)
    ensures var out := Proxy(modelId, req, agent, Fetched(rows), up, keylessError);
      out.forward.Some? ==>
        exists i ::
          && 0 <= i < |rows|
          && Some(rows[i].key) == (if agent.Some? && Truthy(agent.value.data.modelId) then agent.value.data.modelId else modelId)
          && out.forward.value.url == rows[i].data.baseUrl + "/chat/completions"
          && out.forward.value.authorization == "Bearer " + Render(
               if agent.Some? && Truthy(agent.value.data.apiKey) then agent.value.data.apiKey else rows[i].data.apiKey, "null")
  {
    var out := Proxy(modelId, req, agent, Fetched(rows), up, keylessError);
    if out.forward.Some? {
      var found := FindByKey(rows, TargetModel(modelId, agent).value);
      var i :| 0 <= i < |rows| && rows[i] == found.value;
    }
  }

  /** The caller's request is changed exactly when the adaptation inserts a system message
      or prefixes the first one; replacing an agent's system messages leaves it alone. */
  lemma CallerSeesAdaptation(
    modelId: Option<string>, req: RequestValue, agent: Option<Agent>, rows: seq<ModelConfig>, up: Upstream, keylessError: string)
    requires req.messages.Present?
    ensures var out := Proxy(modelId, req, agent, Fetched(rows), up, keylessError);
      out.forward.Some? ==>
        (out.callerMessages != req.messages <==>
          if agent.Some? then Truthy(agent.value.data.systemPrompt) && !HasSystem(req.messages.value)
          else modelId.Some? && modelId.value in Keys(rows) && Truthy(FindByKey(rows, modelId.value).value.data.prompt))
  {
    var out := Proxy(modelId, req, agent, Fetched(rows), up, keylessError);
    var ms := req.messages.value;
    if out.forward.Some? && agent.None? {
      var prefix := FindByKey(rows, modelId.value).value.data.prompt;
      if Truthy(prefix) {
        var r := WithModelPrompt(ms, prefix.value);
        if |ms| > 0 && ms[0].role == "system" {
          assert |r[0].content| > |ms[0].content|;
        } else {
          assert |r| == |ms| + 1;
        }
      }
    } else if out.forward.Some? && Truthy(agent.value.data.systemPrompt) && !HasSystem(ms) {
      assert |WithAgentPrompt(ms, agent.value.data.systemPrompt.value)| == |ms| + 1;
    }
  }
}

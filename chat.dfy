/** The chat-completion call both selectors make to their "selector" upstream. */
module Chat {
  import opened Wrappers

  /** One `{role, content}` entry of a chat-completion `messages` list. */
  datatype ChatMessage = ChatMessage(role: string, content: string)

  /** Where a selector sends its classification call: model id, base URL and key, each
      possibly unset. */
  datatype SelectorConfig = SelectorConfig(modelId: Option<string>, baseUrl: Option<string>, apiKey: Option<string>)

  /** The POST a selector issues: its URL, `Authorization` header and JSON body. An unset
      `model` is dropped from the body by `JSON.stringify`. */
  datatype SelectorCall = SelectorCall(
    url: string,
    authorization: string,
    model: Option<string>,
    messages: seq<ChatMessage>,
    temperature: real,
    maxTokens: int)

  /** What the selector upstream gives back: `choices[0].message.content` as a string, or the
      message of whatever was thrown on the way (transport error, status not ok, a body that
      is not JSON or lacks that path, content that is not a string). */
  datatype ClassifierReply = Replied(content: string) | Failed(message: string)

  /** `${baseUrl}/chat/completions`. */
  function Endpoint(baseUrl: string): string
  {
    baseUrl + "/chat/completions"
  }

  /** The classification call: the prompt as the system message, the user text as the user
      message, temperature 0.3 and at most 50 output tokens. Unset URL and key parts render
      as "undefined", as the template literals do. */
  function SelectorRequest(cfg: SelectorConfig, prompt: string, userRequest: string): SelectorCall
  {
    SelectorCall(
      Endpoint(Render(cfg.baseUrl, "undefined")),
      "Bearer " + Render(cfg.apiKey, "undefined"),
      cfg.modelId,
      [ChatMessage("system", prompt), ChatMessage("user", userRequest)],
      0.3,
      50)
  }
}

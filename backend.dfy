/**
 * The two external services as the core sees them: the chat backend (the
 * request sent to ollama.chat and the reply or exception it gives back) and
 * the Wikipedia request. Both are oracles: a `World` answers each request as
 * a function of everything asked before it and of the request itself, which
 * covers a scripted sequence of answers as well as a backend whose answer
 * depends on the conversation.
 */
module Backend {
  import opened Wrappers
  import opened Wiki

  /** One entry of a reply's tool_calls: its id, function name and arguments. */
  datatype ToolCall = ToolCall(id: Option<string>, name: string, arguments: map<string, string>)

  /** A reply's message as the backend returned it; `content` may be absent. */
  datatype AssistantMessage = AssistantMessage(content: Option<string>, toolCalls: seq<ToolCall>)

  /** The entries of the `messages` list sent to the backend. */
  datatype Message =
    | SystemMessage(text: string)
    | UserMessage(text: string)
    | Assistant(reply: AssistantMessage)
    | ToolMessage(text: string, toolCallId: Option<string>)

  /** One ollama.chat call; `toolsOffered` says whether the wiki_search tool
      was advertised. */
  datatype ChatRequest = ChatRequest(model: string, messages: seq<Message>, toolsOffered: bool)

  /** The call raised (with the exception's text) or returned a message. */
  datatype ChatOutcome = ChatFailure(error: string) | ChatReply(message: AssistantMessage)

  /** One call to an external service, in the order they happen. */
  datatype Event = Chat(request: ChatRequest) | Lookup(query: string)

  datatype World = World(
    chat: (seq<Event>, ChatRequest) -> ChatOutcome,
    fetch: (seq<Event>, string) -> FetchOutcome)

  /** message.get('content', ''). */
  function ContentOf(m: AssistantMessage): string {
    m.content.GetOr("")
  }

  /** arguments.get('query', ''). */
  function QueryOf(tc: ToolCall): string {
    if "query" in tc.arguments then tc.arguments["query"] else ""
  }
}

/** Conversation items, event messages and the payloads of the rollout log. */
module Protocol {
  import opened Wrappers

  datatype ItemType = Message | Reasoning | FunctionCall | FunctionCallOutput | OtherType(name: string)

  datatype Role = NoRole | User | Assistant | Developer | OtherRole(name: string)

  datatype ContentItem = ContentItem(kind: string, text: string, imageUrl: string)

  /** `extra` stands for the fields the session never looks into. */
  datatype ResponseItem = ResponseItem(
    typ: ItemType,
    role: Role,
    content: seq<ContentItem>,
    callId: string,
    name: string,
    arguments: string,
    output: string,
    extra: string)

  function NewFunctionCallOutput(callId: string, output: string): ResponseItem {
    ResponseItem(FunctionCallOutput, NoRole, [], callId, "", "", output, "")
  }

  function NewMessage(role: Role, content: seq<ContentItem>): ResponseItem {
    ResponseItem(Message, role, content, "", "", "", "", "")
  }

  function ImageContents(imageUrls: seq<string>): seq<ContentItem> {
    if imageUrls == [] then []
    else [ContentItem("input_image", "", imageUrls[0])] + ImageContents(imageUrls[1..])
  }

  function NewUserMessage(text: string, imageUrls: seq<string>): ResponseItem {
    NewMessage(User, (if text == "" then [] else [ContentItem("input_text", text, "")]) + ImageContents(imageUrls))
  }

  function NewAssistantMessage(text: string): ResponseItem {
    NewMessage(Assistant, [ContentItem("output_text", text, "")])
  }

  function NewDeveloperMessage(text: string): ResponseItem {
    NewMessage(Developer, [ContentItem("input_text", text, "")])
  }

  function ContentText(content: seq<ContentItem>): string {
    if content == [] then "" else content[0].text + ContentText(content[1..])
  }

  function Text(item: ResponseItem): string {
    ContentText(item.content)
  }

  datatype Usage = Usage(inputTokens: int, outputTokens: int, totalTokens: int)

  datatype Completion = Completion(
    lastAgentMessage: Option<string>,
    error: Option<string>,
    completedAt: int,
    durationMs: int,
    usage: Option<Usage>,
    responseId: string)

  datatype EventMsg =
    | TurnStarted(turnId: string, startedAt: int)
    | TurnComplete(turnId: string, completion: Completion)
    | TurnAborted(turnId: string, reason: string, completedAt: int)
    | ToolCallStarted(callId: string, name: string, arguments: string)
    | ToolCallCompleted(callId: string, name: string, output: string)
    | ErrorEvent(message: string)
    | ContextCompaction(turnId: string)
    | TerminalInteraction(callId: string, stdin: string)
    | AgentMessageDelta(delta: string)
    | CommandOutputDelta(callId: string, chunk: string)

  datatype Payload =
    | SessionMeta(cwd: string)
    | TurnContext(turnId: string)
    | Event(msg: EventMsg)
    | Item(item: ResponseItem)
    | Compacted(message: string, replacement: seq<ResponseItem>)
}

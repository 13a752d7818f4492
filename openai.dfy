/** The completion client (src/services/openai.rs): the request it builds,
    and how it reads the backend's reply. Sending the request is network
    I/O: it is the `Transport` parameter, an arbitrary function from the
    request to either a transport error or the decoded response. */
module OpenAi {
  import opened Wrappers
  import Json

  datatype ToolCall =
    | FunctionCall(id: string, name: string, arguments: Json.RawJson)
    | CustomCall(id: string, name: string)

  /** `ChatCompletionRequestMessage`, one variant per role. */
  datatype ChatMessage =
    | SystemMessage(content: string)
    | UserMessage(content: string)
    | AssistantMessage(text: Option<string>, toolCalls: Option<seq<ToolCall>>)
    | ToolMessage(toolCallId: string, content: string)

  /** One entry of a tool's JSON-schema `properties`. */
  datatype Property = Property(name: string, kind: string, description: string, itemKind: Option<string>)

  /** `ChatCompletionTools::Function`: name, description and an object
      schema; `required` is absent from the schema when None. */
  datatype ToolDefinition = ToolDefinition(
    name: string, description: string, properties: seq<Property>, required: Option<seq<string>>)

  /** `ChatCompletionToolChoiceOption`, left opaque. */
  datatype ToolChoice = ToolChoice(mode: string)

  datatype ChatRequest = ChatRequest(
    model: string, messages: seq<ChatMessage>,
    tools: Option<seq<ToolDefinition>>, toolChoice: Option<ToolChoice>)

  /** The message of one response choice. */
  datatype ChoiceMessage = ChoiceMessage(content: Option<string>, toolCalls: Option<seq<ToolCall>>)

  datatype Completion = Completion(choices: seq<ChoiceMessage>)

  type Transport = ChatRequest -> Result<Completion>

  const NoResponse := "No response from OpenAI"
  const NoContent := "No response content from OpenAI"

  /** `create_chat_completion` reads the first choice's content. */
  function ReadContent(reply: Result<Completion>): (r: Result<string>)
    ensures reply.Err? ==> r == Err(reply.error)
    ensures reply.Ok? && |reply.value.choices| == 0 ==> r == Err(NoResponse)
    ensures reply.Ok? && |reply.value.choices| > 0 ==>
      r == (match reply.value.choices[0].content
            case Some(c) => Ok(c)
            case None => Err(NoContent))
  {
    match reply
    case Err(e) => Err(e)
    case Ok(resp) =>
      if |resp.choices| == 0 then Err(NoResponse)
      else match resp.choices[0].content
        case Some(c) => Ok(c)
        case None => Err(NoContent)
  }

  /** `create_chat_completion_with_tools` reads the first choice: its tool
      calls with the content or "", or else its content alone. */
  function ReadContentOrCalls(reply: Result<Completion>): (r: Result<(string, Option<seq<ToolCall>>)>)
    ensures reply.Err? ==> r == Err(reply.error)
    ensures reply.Ok? && |reply.value.choices| == 0 ==> r == Err(NoResponse)
    ensures reply.Ok? && |reply.value.choices| > 0 && reply.value.choices[0].toolCalls.Some? ==>
      r == Ok((reply.value.choices[0].content.GetOr(""), reply.value.choices[0].toolCalls))
    ensures reply.Ok? && |reply.value.choices| > 0 && reply.value.choices[0].toolCalls.None? ==>
      r == (match reply.value.choices[0].content
            case Some(c) => Ok((c, None))
            case None => Err(NoContent))
  {
    match reply
    case Err(e) => Err(e)
    case Ok(resp) =>
      if |resp.choices| == 0 then Err(NoResponse)
      else
        var choice := resp.choices[0];
        if choice.toolCalls.Some? then Ok((choice.content.GetOr(""), choice.toolCalls))
        else match choice.content
          case Some(c) => Ok((c, None))
          case None => Err(NoContent)
  }

  /** The two readings agree when the backend does not ask for tools; when
      it does, only the tool-aware reading tolerates missing content, and
      it never fails on such a reply. */
  lemma ReadingsAgree(reply: Result<Completion>)
    ensures (reply.Ok? && |reply.value.choices| > 0 && reply.value.choices[0].toolCalls.Some?)
      ==> ReadContentOrCalls(reply).Ok?
    ensures !(reply.Ok? && |reply.value.choices| > 0 && reply.value.choices[0].toolCalls.Some?)
      ==> (match ReadContent(reply)
           case Ok(c) => ReadContentOrCalls(reply) == Ok((c, None))
           case Err(e) => ReadContentOrCalls(reply) == Err(e))
  {
  }

  datatype OpenAiService = OpenAiService(model: string) {

    function CreateSystemMessage(content: string): ChatMessage {
      SystemMessage(content)
    }

    function CreateUserMessage(content: string): ChatMessage {
      UserMessage(content)
    }

    function CreateAssistantMessage(content: string): ChatMessage {
      AssistantMessage(Some(content), None)
    }

    function CreateToolMessage(toolCallId: string, content: string): ChatMessage {
      ToolMessage(toolCallId, content)
    }

    /** The request of `create_chat_completion`: model and messages only. */
    function PlainRequest(messages: seq<ChatMessage>): ChatRequest {
      ChatRequest(model, messages, None, None)
    }

    /** `create_chat_completion`: one request, then the first choice's content. */
    function CreateChatCompletion(messages: seq<ChatMessage>, send: Transport): (r: Result<string>)
      ensures r == ReadContent(send(ChatRequest(model, messages, None, None)))
    {
      ReadContent(send(PlainRequest(messages)))
    }

    /** The request builder of `create_chat_completion_with_tools`. */
    method BuildToolsRequest(messages: seq<ChatMessage>, tools: seq<ToolDefinition>, toolChoice: Option<ToolChoice>)
      returns (request: ChatRequest)
      ensures request.model == model && request.messages == messages
      ensures request.tools.Some? <==> |tools| > 0
      ensures request.tools.Some? ==> request.tools.value == tools
      ensures request.toolChoice.Some? <==> |tools| > 0 && toolChoice.Some?
      ensures request.toolChoice.Some? ==> request.toolChoice == toolChoice
    {
      request := ChatRequest(model, messages, None, None);
      if |tools| > 0 {
        request := request.(tools := Some(tools));
        if toolChoice.Some? {
          request := request.(toolChoice := toolChoice);
        }
      }
    }

    /** `create_chat_completion_with_tools`; `request` is what was handed
        to the transport. */
    method CreateChatCompletionWithTools(
      messages: seq<ChatMessage>, tools: seq<ToolDefinition>, toolChoice: Option<ToolChoice>, send: Transport)
      returns (r: Result<(string, Option<seq<ToolCall>>)>, request: ChatRequest)
      ensures request.model == model && request.messages == messages
      ensures request.tools == (if |tools| > 0 then Some(tools) else None)
      ensures request.toolChoice == (if |tools| > 0 then toolChoice else None)
      ensures r == ReadContentOrCalls(send(request))
    {
      request := BuildToolsRequest(messages, tools, toolChoice);
      r := ReadContentOrCalls(send(request));
    }
  }

  /** The constructors keep what they are given under their own role. */
  lemma MessageConstructors(service: OpenAiService, id: string, content: string)
    ensures service.CreateToolMessage(id, content).toolCallId == id
    ensures service.CreateToolMessage(id, content).content == content
    ensures service.CreateSystemMessage(content) == SystemMessage(content)
    ensures service.CreateUserMessage(content) == UserMessage(content)
    ensures service.CreateAssistantMessage(content) == AssistantMessage(Some(content), None)
  {
  }
}

/** The chat service of src/agent/chat.rs: it turns a conversation history
    and a new user message into one completion, optionally with one round
    of tool calls answered by the dispatcher of src/agent/tools/tools.rs. */
module Chat {
  import opened Wrappers
  import opened OpenAi
  import Memory
  import opened DiscordModel
  import Tools

  const ToolSystemPrompt := "You are helpful discord assistant"
  const ToolsNeedContext := "Tools require Discord context"
  const CustomToolPrefix := "custom tool not supported: "

  /** What a chat turn answered, with every request handed to the
      transport, in order. */
  datatype ChatTrace = ChatTrace(reply: Result<string>, requests: seq<ChatRequest>)

  /** A stored message as a request message of the same role. */
  function ToChatMessage(service: OpenAiService, m: Memory.Message): (c: ChatMessage)
    ensures m.role == Memory.User ==> c == UserMessage(m.content)
    ensures m.role == Memory.Assistant ==> c == AssistantMessage(Some(m.content), None)
    ensures m.role == Memory.System ==> c == SystemMessage(m.content)
  {
    match m.role
    case User => service.CreateUserMessage(m.content)
    case Assistant => service.CreateAssistantMessage(m.content)
    case System => service.CreateSystemMessage(m.content)
  }

  function HistoryMessages(service: OpenAiService, history: seq<Memory.Message>): (r: seq<ChatMessage>)
    ensures |r| == |history|
    ensures forall i | 0 <= i < |history| :: r[i] == ToChatMessage(service, history[i])
  {
    if |history| == 0 then [] else HistoryMessages(service, history[..|history| - 1]) + [ToChatMessage(service, history[|history| - 1])]
  }

  /** What one tool call is answered with. */
  function ToolReply(service: OpenAiService, ctx: DiscordCtx, call: ToolCall): (m: ChatMessage)
    ensures m.ToolMessage? && m.toolCallId == call.id
    ensures call.CustomCall? ==> m.content == CustomToolPrefix + call.name
    ensures call.FunctionCall? ==> m.content == Tools.ExecuteToolCall(ctx, call.name, call.arguments)
  {
    match call
    case FunctionCall(id, name, arguments) => service.CreateToolMessage(id, Tools.ExecuteToolCall(ctx, name, arguments))
    case CustomCall(id, name) => service.CreateToolMessage(id, CustomToolPrefix + name)
  }

  /** One tool message per call, in the order of the calls. */
  function ToolReplies(service: OpenAiService, ctx: DiscordCtx, calls: seq<ToolCall>): (r: seq<ChatMessage>)
    ensures |r| == |calls|
    ensures forall i | 0 <= i < |calls| :: r[i] == ToolReply(service, ctx, calls[i])
  {
    if |calls| == 0 then [] else ToolReplies(service, ctx, calls[..|calls| - 1]) + [ToolReply(service, ctx, calls[|calls| - 1])]
  }

  /** The assistant turn that carries the model's tool calls; empty
      content is left out. */
  function ToolCallTurn(content: string, calls: seq<ToolCall>): ChatMessage {
    AssistantMessage(if content == "" then None else Some(content), Some(calls))
  }

  /** The conversation sent first: system prompt, history, new message. */
  function Conversation(service: OpenAiService, prompt: string, history: seq<Memory.Message>, userMessage: string)
    : seq<ChatMessage>
  {
    [service.CreateSystemMessage(prompt)] + HistoryMessages(service, history) + [service.CreateUserMessage(userMessage)]
  }

  /** `chat_with_history`, stated on values; `prompt` is the system prompt
      the service picked for `useTools`. */
  function ChatTurn(
    service: OpenAiService, prompt: string, history: seq<Memory.Message>, userMessage: string,
    useTools: bool, ctx: Option<DiscordCtx>, send: Transport): (r: ChatTrace)
    ensures |r.requests| <= 2
    ensures r.requests != [] ==> r.requests[0].messages == Conversation(service, prompt, history, userMessage)
    ensures !useTools ==> |r.requests| == 1 && r.requests[0].tools.None? && r.reply == ReadContent(send(r.requests[0]))
    ensures useTools && ctx.None? ==> r == ChatTrace(Err(ToolsNeedContext), [])
    ensures |r.requests| == 2 ==> useTools && r.requests[1].tools.None? && r.reply == ReadContent(send(r.requests[1]))
  {
    var conversation := Conversation(service, prompt, history, userMessage);
    if !useTools then
      var request := service.PlainRequest(conversation);
      ChatTrace(ReadContent(send(request)), [request])
    else if ctx.None? then
      ChatTrace(Err(ToolsNeedContext), [])
    else
      var first := ChatRequest(service.model, conversation, Some(Tools.ToolDefinitions()), None);
      match ReadContentOrCalls(send(first))
      case Err(e) => ChatTrace(Err(e), [first])
      case Ok((content, None)) => ChatTrace(Ok(content), [first])
      case Ok((content, Some(calls))) =>
        var second := service.PlainRequest(
          conversation + [ToolCallTurn(content, calls)] + ToolReplies(service, ctx.value, calls));
        ChatTrace(ReadContent(send(second)), [first, second])
  }

  class ChatService {
    const openai: OpenAiService
    var systemPrompt: string
    var toolSystemPrompt: string

    /** `ChatService::new`: the tool prompt starts as the fixed default. */
    constructor(openai: OpenAiService, systemPrompt: string)
      ensures this.openai == openai && this.systemPrompt == systemPrompt
      ensures toolSystemPrompt == ToolSystemPrompt
    {
      this.openai := openai;
      this.systemPrompt := systemPrompt;
      toolSystemPrompt := ToolSystemPrompt;
    }

    /** The system prompt a turn uses: the tool prompt exactly when tools are on. */
    function PromptFor(useTools: bool): (p: string)
      reads this
      ensures useTools ==> p == toolSystemPrompt
      ensures !useTools ==> p == systemPrompt
    {
      if useTools then toolSystemPrompt else systemPrompt
    }

    /** `single_chat`: system prompt and one user message, no history, no tools. */
    function SingleChat(userMessage: string, send: Transport): (r: ChatTrace)
      reads this
      ensures |r.requests| == 1 && r.requests[0].tools.None?
      ensures r.requests[0].messages == [SystemMessage(systemPrompt), UserMessage(userMessage)]
      ensures r.reply == ReadContent(send(r.requests[0]))
    {
      var request := openai.PlainRequest([openai.CreateSystemMessage(systemPrompt), openai.CreateUserMessage(userMessage)]);
      ChatTrace(ReadContent(send(request)), [request])
    }

    /** `chat_with_history` as written: the history copied message by
        message, then at most one round of tool calls answered one by one. */
    method ChatWithHistory(
      userMessage: string, memory: Memory.ConversationMemory, useTools: bool, ctx: Option<DiscordCtx>, send: Transport)
      returns (r: ChatTrace)
      ensures r == ChatTurn(openai, PromptFor(useTools), Memory.GetMessages(memory), userMessage, useTools, ctx, send)
    {
      var prompt := PromptFor(useTools);
      var history := Memory.GetMessages(memory);
      var messages := [openai.CreateSystemMessage(prompt)];
      var i := 0;
      while i < |history|
        invariant 0 <= i <= |history|
        invariant messages == [openai.CreateSystemMessage(prompt)] + HistoryMessages(openai, history[..i])
      {
        assert history[..i + 1][..i] == history[..i];
        messages := messages + [ToChatMessage(openai, history[i])];
        i := i + 1;
      }
      assert history[..i] == history;
      messages := messages + [openai.CreateUserMessage(userMessage)];
      assert messages == Conversation(openai, prompt, history, userMessage);

      if useTools {
        if ctx.None? {
          return ChatTrace(Err(ToolsNeedContext), []);
        }
        var toolCtx := ctx.value;
        var tools := Tools.ToolDefinitions();
        var firstReply, first := openai.CreateChatCompletionWithTools(messages, tools, None, send);
        if firstReply.Err? {
          return ChatTrace(Err(firstReply.error), [first]);
        }
        var (content, toolCalls) := firstReply.value;
        if toolCalls.Some? {
          var calls := toolCalls.value;
          var conversation := messages;
          messages := messages + [ToolCallTurn(content, calls)];
          var j := 0;
          while j < |calls|
            invariant 0 <= j <= |calls|
            invariant messages == conversation + [ToolCallTurn(content, calls)] + ToolReplies(openai, toolCtx, calls[..j])
          {
            assert calls[..j + 1][..j] == calls[..j];
            messages := messages + [ToolReply(openai, toolCtx, calls[j])];
            j := j + 1;
          }
          assert calls[..j] == calls;
          var second := openai.PlainRequest(messages);
          return ChatTrace(openai.CreateChatCompletion(messages, send), [first, second]);
        }
        return ChatTrace(Ok(content), [first]);
      }
      var request := openai.PlainRequest(messages);
      r := ChatTrace(openai.CreateChatCompletion(messages, send), [request]);
    }

    /** `update_system_prompt` */
    method UpdateSystemPrompt(newPrompt: string)
      modifies this
      ensures systemPrompt == newPrompt && toolSystemPrompt == old(toolSystemPrompt)
    {
      systemPrompt := newPrompt;
    }

    /** `update_tool_system_prompt` */
    method UpdateToolSystemPrompt(newPrompt: string)
      modifies this
      ensures toolSystemPrompt == newPrompt && systemPrompt == old(systemPrompt)
    {
      toolSystemPrompt := newPrompt;
    }

    /** `system_prompt()` */
    function SystemPrompt(): (p: string)
      reads this
      ensures p == systemPrompt
    {
      systemPrompt
    }
  }

  // Properties of a chat turn.

  /** The first request is the system prompt, the history in order with
      each role kept, then the new message; the tool catalogue is attached
      exactly when tools are on. */
  lemma FirstRequestShape(
    service: OpenAiService, prompt: string, history: seq<Memory.Message>, userMessage: string,
    useTools: bool, ctx: Option<DiscordCtx>, send: Transport)
    requires !useTools || ctx.Some?
    ensures var t := ChatTurn(service, prompt, history, userMessage, useTools, ctx, send);
      |t.requests| >= 1
      && t.requests[0].messages[0] == SystemMessage(prompt)
      && t.requests[0].messages[1..|history| + 1] == HistoryMessages(service, history)
      && t.requests[0].messages[|history| + 1] == UserMessage(userMessage)
      && |t.requests[0].messages| == |history| + 2
      && (t.requests[0].tools.Some? <==> useTools)
  {
    var c := Conversation(service, prompt, history, userMessage);
    assert c[1..|history| + 1] == HistoryMessages(service, history);
  }

  /** The code makes exactly one tool round: at most two requests, and the
      second never offers tools, so tool calls in the second reply are not
      executed. */
  lemma AtMostOneToolRound(
    service: OpenAiService, prompt: string, history: seq<Memory.Message>, userMessage: string,
    useTools: bool, ctx: Option<DiscordCtx>, send: Transport)
    ensures var t := ChatTurn(service, prompt, history, userMessage, useTools, ctx, send);
      |t.requests| <= 2
      && (|t.requests| == 2 ==> useTools && t.requests[1].tools.None? && t.reply == ReadContent(send(t.requests[1])))
  {
  }

  /** When the model asks for tools, the second request extends the first
      conversation with the assistant's tool-call turn (its content left out
      when empty) and then one tool message per call, answering call k under
      call k's id with the dispatcher's output, or with the custom-tool text. */
  lemma EveryToolCallAnsweredInOrder(
    service: OpenAiService, prompt: string, history: seq<Memory.Message>, userMessage: string,
    ctx: DiscordCtx, send: Transport)
    requires |ChatTurn(service, prompt, history, userMessage, true, Some(ctx), send).requests| == 2
    ensures var t := ChatTurn(service, prompt, history, userMessage, true, Some(ctx), send);
      var first := t.requests[0].messages;
      var second := t.requests[1].messages;
      var calls := send(t.requests[0]).value.choices[0].toolCalls.value;
      |second| == |first| + 1 + |calls|
      && second[..|first|] == first
      && var content := send(t.requests[0]).value.choices[0].content.GetOr("");
      second[|first|] == AssistantMessage(if content == "" then None else Some(content), Some(calls))
      && second[|first| + 1..] == ToolReplies(service, ctx, calls)
      && forall k | 0 <= k < |calls| ::
           second[|first| + 1 + k].ToolMessage? && second[|first| + 1 + k].toolCallId == calls[k].id
           && (calls[k].FunctionCall? ==>
                 second[|first| + 1 + k].content == Tools.ExecuteToolCall(ctx, calls[k].name, calls[k].arguments))
           && (calls[k].CustomCall? ==> second[|first| + 1 + k].content == CustomToolPrefix + calls[k].name)
  {
    var t := ChatTurn(service, prompt, history, userMessage, true, Some(ctx), send);
    var first := t.requests[0].messages;
    var reply := send(t.requests[0]);
    assert reply.Ok? && |reply.value.choices| > 0 && reply.value.choices[0].toolCalls.Some?;
    var calls := reply.value.choices[0].toolCalls.value;
    var content := reply.value.choices[0].content.GetOr("");
    assert t.requests[1].messages == first + [ToolCallTurn(content, calls)] + ToolReplies(service, ctx, calls);
  }

  /** A reply without tool calls is the answer: no second request. */
  lemma NoToolCallsAnswersDirectly(
    service: OpenAiService, prompt: string, history: seq<Memory.Message>, userMessage: string,
    ctx: DiscordCtx, send: Transport, c: Completion)
    requires send(ChatRequest(service.model, Conversation(service, prompt, history, userMessage), Some(Tools.ToolDefinitions()), None)) == Ok(c)
    requires |c.choices| > 0 && c.choices[0].toolCalls.None? && c.choices[0].content.Some?
    ensures ChatTurn(service, prompt, history, userMessage, true, Some(ctx), send)
         == ChatTrace(Ok(c.choices[0].content.value), [ChatRequest(service.model, Conversation(service, prompt, history, userMessage), Some(Tools.ToolDefinitions()), None)])
  {
  }

  /** Tools without a Discord context fail before anything is sent. */
  lemma ToolsWithoutContextSendNothing(
    service: OpenAiService, prompt: string, history: seq<Memory.Message>, userMessage: string, send: Transport)
    ensures ChatTurn(service, prompt, history, userMessage, true, None, send) == ChatTrace(Err(ToolsNeedContext), [])
  {
  }
}
